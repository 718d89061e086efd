/** src/wamp_client.rs: remote calls among any number of clients over a broker that may drop,
    repeat, delay and reorder what it carries. */
module Wamp {
  import opened Prelude
  import opened Json
  import opened Outbound

  // ── messages ─────────────────────────────────────────────────────────────

  datatype Message = Message(
    topic: string, corr: Option<string>, replyTo: Option<string>, args: Option<Json>, kwargs: Option<Json>)

  // What a handler, and then a call, concludes with.
  type Verdict = Result<Json, Json>

  // A null argument is read back as an absent one.
  function Transit(v: Option<Json>): Option<Json> {
    if v == Some(Null) then None else v
  }

  function PublishMessage(topic: string, kwargs: Json): Message {
    Message(topic, None, None, None, Some(kwargs))
  }

  function CallKwargs(function_: string, corr: string, replyTo: string, kwargs: Json): Json {
    Obj(FieldsOf(kwargs)["function" := Str(function_)]["correlation_id" := Str(corr)]["reply_to" := Str(replyTo)])
  }

  function CallMessage(function_: string, target: string, corr: string, replyTo: string, args: Json, kwargs: Json): Message {
    Message(target, Some(corr), Some(replyTo), Some(args), Some(CallKwargs(function_, corr, replyTo, kwargs)))
  }

  function ReplyBase(corr: string, isError: bool): map<string, Json> {
    var base := map["is_result" := Bool(true), "correlation_id" := Str(corr)];
    if isError then base["is_error" := Bool(true)] else base
  }

  function Payload(v: Verdict): Json {
    if v.Ok? then v.value else v.error
  }

  // make_reply: the payload's own fields come last and win.
  function MakeReply(replyTo: string, corr: string, v: Verdict): Message {
    Message(replyTo, Some(corr), None, None, Some(Obj(ReplyBase(corr, v.Err?) + FieldsOf(Payload(v)))))
  }

  // The function an event asks for, which makes it a call and not a reply.
  function FunctionOf(m: Message): Option<string> {
    if Transit(m.kwargs).Some? then AsStr(Get(m.kwargs.value, "function")) else None
  }

  // handle_message on an event without a function.
  function HeardVerdict(m: Message): Verdict {
    var kwargs := Transit(m.kwargs);
    var payload := OrElse(if kwargs.Some? then kwargs else Transit(m.args), Null);
    if kwargs.Some? && OrElse(AsBool(Get(kwargs.value, "is_error")), false) then Err(payload) else Ok(payload)
  }

  // The verdict a caller should see: the same kind, with the object payload completed.
  function Completed(corr: string, v: Verdict): Verdict {
    var payload := Obj(ReplyBase(corr, v.Err?) + FieldsOf(Payload(v)));
    if v.Ok? then Ok(payload) else Err(payload)
  }

  // Payloads that do not pretend to be a call or the other kind of reply.
  predicate Plain(v: Verdict) {
    var fields := FieldsOf(Payload(v));
    && !("function" in fields && fields["function"].Str?)
    && ("is_error" in fields ==> (fields["is_error"] == Bool(true) <==> v.Err?))
  }

  /** A reply is understood as the handler's own verdict exactly when the payload holds no text
      under function, and nothing under is_error that contradicts it. */
  lemma {:induction false} ReplyRoundTrip(replyTo: string, corr: string, v: Verdict)
    ensures var m := MakeReply(replyTo, corr, v);
      FunctionOf(m).None? && HeardVerdict(m) == Completed(corr, v) <==> Plain(v)
  {
    var fields := FieldsOf(Payload(v));
    var all := ReplyBase(corr, v.Err?) + fields;
    assert "function" in all <==> "function" in fields;
    assert "is_error" in all <==> v.Err? || "is_error" in fields;
  }

  // ── the system ───────────────────────────────────────────────────────────

  // Where a message came from; ByRun(k) is the reply to the k-th incoming call.
  datatype Origin = ByPublish | ByCall | ByRun(k: nat)
  datatype Envelope = Envelope(msg: Message, origin: Origin)

  datatype Client = Client(channel: string, registered: set<string>, pending: set<string>, out: Outbound<Envelope>)

  // NotSent(late): publish_tx was still None, or the receiver was already gone.
  datatype Answer = NotSent(late: bool) | TimedOut | Replied(verdict: Verdict)

  // Registered: entry inserted. Sending: owns the publish lock. Expired: timed out, entry not removed yet.
  datatype Phase = Registered | Sending | Waiting | Expired | Returned(answer: Answer)

  // What was sent into the call's oneshot channel, and which message caused it.
  datatype Cause = Event(e: Envelope) | Broker(text: string)
  datatype Slot = Slot(verdict: Verdict, cause: Cause)

  datatype Call = Call(
    caller: nat, function_: string, target: string, args: Json, kwargs: Json, phase: Phase, slot: Option<Slot>)

  // An incoming call at a client; without a handler it concludes at once.
  datatype Incoming = Incoming(
    at: nat, function_: string, args: Option<Json>, kwargs: Option<Json>, corr: Option<string>, replyTo: Option<string>,
    handled: bool, outcome: Option<Verdict>, answered: bool)

  // wire holds everything the broker ever took: it may deliver any of it, any number of times.
  datatype State = State(clients: seq<Client>, calls: map<string, Call>, runs: seq<Incoming>, wire: set<Envelope>)

  function Start(channels: seq<string>): State {
    State(seq(|channels|, i requires 0 <= i < |channels| => Client(channels[i], {}, {}, Fresh())), map[], [], {})
  }

  function MessageOf(s: State, corr: string): Message
    requires corr in s.calls && s.calls[corr].caller < |s.clients|
  {
    var call := s.calls[corr];
    CallMessage(call.function_, call.target, corr, s.clients[call.caller].channel, call.args, call.kwargs)
  }

  datatype Event =
    | Register(n: nat, function_: string)
    | Net(n: nat, op: Op<Envelope>)                          // install, connect, drop, stop
    | Publish(n: nat, topic: string, kwargs: Json)           // publish takes the lock
    | Pushed(n: nat)                                         // the lock holder finds room
    | Failed(n: nat)                                         // the lock holder finds the receiver gone
    | Drained(n: nat, ok: bool, reached: bool)               // the loop sends a message; an error may hide its arrival
    | Begin(corr: string, call: Call)                        // the pending entry goes in
    | Acquire(corr: string)                                  // the call gets to publish_tx
    | Take(corr: string)                                     // the reply is received
    | Expire(corr: string)                                   // thirty seconds are over
    | GiveUp(corr: string)                                   // the entry is taken out
    | Hear(n: nat, e: Envelope, ok: bool)                    // an event arrives; ok: a direct reply gets out
    | BrokerError(n: nat, about: Option<string>, text: string)
    | Finish(k: nat, verdict: Verdict)                       // a handler concludes
    | Reply(k: nat, got: bool)                               // try_lock, and whether it succeeds

  // ── the effect of each event ─────────────────────────────────────────────

  function WithOut(s: State, n: nat, op: Op<Envelope>): State
    requires n < |s.clients| && Can(s.clients[n].out, op)
  {
    s.(clients := s.clients[n := s.clients[n].(out := Do(s.clients[n].out, op))])
  }

  function WithPhase(s: State, corr: string, phase: Phase): State
    requires corr in s.calls
  {
    s.(calls := s.calls[corr := s.calls[corr].(phase := phase)])
  }

  // The call whose message the lock holder of client n is sending.
  function HeldCall(s: State, n: nat): Option<string>
    requires n < |s.clients|
  {
    var h := s.clients[n].out.holder;
    if h.Some? && h.value.origin.ByCall? && h.value.msg.corr.Some? && h.value.msg.corr.value in s.calls
    then h.value.msg.corr
    else None
  }

  // The lock holder is done; if it is a call, that call goes on.
  function OnHolder(s: State, n: nat, op: Op<Envelope>, phase: Phase): State
    requires n < |s.clients| && Can(s.clients[n].out, op)
  {
    var held := HeldCall(s, n);
    if held.Some? then WithPhase(WithOut(s, n, op), held.value, phase) else WithOut(s, n, op)
  }

  function OnDrain(s: State, n: nat, ok: bool, reached: bool): State
    requires n < |s.clients| && Can(s.clients[n].out, Drain(ok))
  {
    var s' := WithOut(s, n, Drain(ok));
    if reached then s'.(wire := s.wire + {s.clients[n].out.queue[0]}) else s'
  }

  function OnBegin(s: State, corr: string, call: Call): State
    requires call.caller < |s.clients|
  {
    var c := s.clients[call.caller];
    s.(clients := s.clients[call.caller := c.(pending := c.pending + {corr})],
       calls := s.calls[corr := call.(phase := Registered, slot := None)])
  }

  function CallLock(s: State, corr: string): Op<Envelope>
    requires corr in s.calls && s.calls[corr].caller < |s.clients|
  {
    Lock(Envelope(MessageOf(s, corr), ByCall))
  }

  function OnAcquire(s: State, corr: string): State
    requires corr in s.calls && s.calls[corr].caller < |s.clients|
    requires var o := s.clients[s.calls[corr].caller].out; o.link.Idle? || o.holder.None?
  {
    var n := s.calls[corr].caller;
    if s.clients[n].out.link.Idle? then WithPhase(s, corr, Returned(NotSent(false)))
    else WithPhase(WithOut(s, n, CallLock(s, corr)), corr, Sending)
  }

  // An entry in client n's table is taken out and told its verdict; other ids change nothing.
  function Settle(s: State, n: nat, corr: string, slot: Slot): State
    requires n < |s.clients|
  {
    var c := s.clients[n];
    if corr in c.pending && corr in s.calls
    then s.(clients := s.clients[n := c.(pending := c.pending - {corr})],
            calls := s.calls[corr := s.calls[corr].(slot := Some(slot))])
    else s
  }

  function OnGiveUp(s: State, corr: string): State
    requires corr in s.calls && s.calls[corr].caller < |s.clients|
  {
    var n := s.calls[corr].caller;
    var c := s.clients[n];
    WithPhase(s.(clients := s.clients[n := c.(pending := c.pending - {corr})]), corr, Returned(TimedOut))
  }

  function NoHandler(function_: string): Verdict {
    Err(Obj(map["error" := Str("no handler for '" + function_ + "'")]))
  }

  function Dispatch(s: State, n: nat, function_: string, m: Message, ok: bool): State
    requires n < |s.clients|
  {
    var run := Incoming(n, function_, Transit(m.args), Transit(m.kwargs), m.corr, m.replyTo, true, None, false);
    if function_ in s.clients[n].registered then s.(runs := s.runs + [run])
    else
      var missed := run.(handled := false, outcome := Some(NoHandler(function_)), answered := true);
      if m.corr.Some? && m.replyTo.Some? && ok then
        var reply := MakeReply(m.replyTo.value, m.corr.value, NoHandler(function_));
        s.(runs := s.runs + [missed], wire := s.wire + {Envelope(reply, ByRun(|s.runs|))})
      else s.(runs := s.runs + [missed])
  }

  function OnHear(s: State, n: nat, e: Envelope, ok: bool): State
    requires n < |s.clients|
  {
    if FunctionOf(e.msg).Some? then Dispatch(s, n, FunctionOf(e.msg).value, e.msg, ok)
    else if e.msg.corr.Some? then Settle(s, n, e.msg.corr.value, Slot(HeardVerdict(e.msg), Cause.Event(e)))
    else s
  }

  function BrokerVerdict(text: string): Verdict {
    Err(Obj(map["error" := Str(text)]))
  }

  function OnBrokerError(s: State, n: nat, about: Option<string>, text: string): State
    requires n < |s.clients|
  {
    if about.Some? then Settle(s, n, about.value, Slot(BrokerVerdict(text), Broker(text))) else s
  }

  function ReplyOf(r: Incoming): Message
    requires r.corr.Some? && r.replyTo.Some? && r.outcome.Some?
  {
    MakeReply(r.replyTo.value, r.corr.value, r.outcome.value)
  }

  // A handler's reply is dropped when another task owns the lock at that moment.
  function OnReply(s: State, k: nat, got: bool): State
    requires k < |s.runs| && s.runs[k].at < |s.clients|
    requires var o := s.clients[s.runs[k].at].out; got ==> !o.link.Idle? && o.holder.None?
  {
    var r := s.runs[k];
    var s' := s.(runs := s.runs[k := r.(answered := true)]);
    if r.corr.Some? && r.replyTo.Some? && r.outcome.Some? && got
    then WithOut(s', r.at, Lock(Envelope(ReplyOf(r), ByRun(k))))
    else s'
  }

  predicate Enabled(s: State, ev: Event) {
    match ev
    case Register(n, _) => n < |s.clients|
    case Net(n, op) => n < |s.clients| && (op.Install? || op.Connect? || op.Drop? || op.Stop?) && Can(s.clients[n].out, op)
    case Publish(n, _, _) => n < |s.clients| && !s.clients[n].out.link.Idle? && s.clients[n].out.holder.None?
    case Pushed(n) => n < |s.clients| && Can(s.clients[n].out, Push)
    case Failed(n) => n < |s.clients| && Can(s.clients[n].out, Refused)
    case Drained(n, ok, reached) => n < |s.clients| && Can(s.clients[n].out, Drain(ok)) && (ok ==> reached)
    case Begin(corr, call) => call.caller < |s.clients| && corr !in s.calls
    case Acquire(corr) =>
      corr in s.calls && s.calls[corr].phase.Registered? && s.calls[corr].caller < |s.clients| &&
      var o := s.clients[s.calls[corr].caller].out; o.link.Idle? || o.holder.None?
    case Take(corr) => corr in s.calls && s.calls[corr].phase.Waiting? && s.calls[corr].slot.Some?
    case Expire(corr) => corr in s.calls && s.calls[corr].phase.Waiting? && s.calls[corr].slot.None?
    case GiveUp(corr) => corr in s.calls && s.calls[corr].phase.Expired? && s.calls[corr].caller < |s.clients|
    case Hear(n, e, _) => n < |s.clients| && s.clients[n].out.link.Up? && e in s.wire && e.msg.topic == s.clients[n].channel
    case BrokerError(n, _, _) => n < |s.clients| && s.clients[n].out.link.Up?
    case Finish(k, _) => k < |s.runs| && s.runs[k].handled && s.runs[k].outcome.None?
    case Reply(k, got) =>
      k < |s.runs| && s.runs[k].at < |s.clients| && s.runs[k].outcome.Some? && !s.runs[k].answered &&
      var o := s.clients[s.runs[k].at].out; got ==> !o.link.Idle? && o.holder.None?
  }

  function After(s: State, ev: Event): State
    requires Enabled(s, ev)
  {
    match ev
    case Register(n, f) => s.(clients := s.clients[n := s.clients[n].(registered := s.clients[n].registered + {f})])
    case Net(n, op) => WithOut(s, n, op)
    case Publish(n, topic, kwargs) => WithOut(s, n, Lock(Envelope(PublishMessage(topic, kwargs), ByPublish)))
    case Pushed(n) => OnHolder(s, n, Push, Waiting)
    case Failed(n) => OnHolder(s, n, Refused, Returned(NotSent(true)))
    case Drained(n, ok, reached) => OnDrain(s, n, ok, reached)
    case Begin(corr, call) => OnBegin(s, corr, call)
    case Acquire(corr) => OnAcquire(s, corr)
    case Take(corr) => WithPhase(s, corr, Returned(Replied(s.calls[corr].slot.value.verdict)))
    case Expire(corr) => WithPhase(s, corr, Expired)
    case GiveUp(corr) => OnGiveUp(s, corr)
    case Hear(n, e, ok) => OnHear(s, n, e, ok)
    case BrokerError(n, about, text) => OnBrokerError(s, n, about, text)
    case Finish(k, verdict) => s.(runs := s.runs[k := s.runs[k].(outcome := Some(verdict))])
    case Reply(k, got) => OnReply(s, k, got)
  }

  predicate EnabledAll(s: State, evs: seq<Event>)
    decreases |evs|
  {
    evs == [] || (Enabled(s, evs[0]) && EnabledAll(After(s, evs[0]), evs[1..]))
  }

  function AfterAll(s: State, evs: seq<Event>): State
    requires EnabledAll(s, evs)
    decreases |evs|
  {
    if evs == [] then s else AfterAll(After(s, evs[0]), evs[1..])
  }
}
