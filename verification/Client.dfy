/** src/wamp_client.rs, WampClient itself: each method runs up to its next await and does to the
    client's own fields exactly what the system of module Wamp says of that event. */
module ClientObject {
  import opened Prelude
  import opened Json
  import opened Outbound
  import opened Wamp
  import WampAnswers

  // What handle_message leaves to do: spawn a handler, send a direct reply, or complete a call.
  datatype Effect = Nothing | Spawn(function_: string) | Direct(reply: Message) | Complete(corr: string, verdict: Verdict)

  function EffectOf(c: Client, m: Message): Effect {
    var f := FunctionOf(m);
    if f.Some? then
      if f.value in c.registered then Spawn(f.value)
      else if m.corr.Some? && m.replyTo.Some? then Direct(MakeReply(m.replyTo.value, m.corr.value, NoHandler(f.value)))
      else Nothing
    else if m.corr.Some? && m.corr.value in c.pending then Complete(m.corr.value, HeardVerdict(m))
    else Nothing
  }

  // The table after that effect.
  function Settled(c: Client, effect: Effect): Client {
    if effect.Complete? then c.(pending := c.pending - {effect.corr}) else c
  }

  // The record of a call that is handled, or concluded at once for want of a handler.
  function Arrival(c: Client, n: nat, m: Message): Incoming
    requires FunctionOf(m).Some?
  {
    var f := FunctionOf(m).value;
    var handled := f in c.registered;
    Incoming(n, f, Transit(m.args), Transit(m.kwargs), m.corr, m.replyTo, handled,
             if handled then None else Some(NoHandler(f)), !handled)
  }

  // The whole system after client n has performed an effect; ok tells whether a direct reply got out.
  function Performed(s: State, n: nat, e: Envelope, ok: bool, effect: Effect): State
    requires n < |s.clients|
  {
    var t := s.(clients := s.clients[n := Settled(s.clients[n], effect)],
                runs := if FunctionOf(e.msg).Some? then s.runs + [Arrival(s.clients[n], n, e.msg)] else s.runs);
    match effect
    case Direct(reply) => if ok then t.(wire := s.wire + {Envelope(reply, ByRun(|s.runs|))}) else t
    case Complete(corr, v) =>
      if corr in s.calls then t.(calls := s.calls[corr := s.calls[corr].(slot := Some(Slot(v, Event(e))))]) else t
    case _ => t
  }

  // In s, c is the client that made this call.
  predicate Calling(s: State, corr: string, c: Client) {
    corr in s.calls && s.calls[corr].caller < |s.clients| && s.clients[s.calls[corr].caller] == c
  }

  // m is the message of this call.
  ghost predicate Sends(m: Message, s: State, corr: string)
    requires corr in s.calls && s.calls[corr].caller < |s.clients|
  {
    var call := s.calls[corr];
    var channel := s.clients[call.caller].channel;
    && m.topic == call.target && m.corr == Some(corr) && m.replyTo == Some(channel) && m.args == Some(call.args)
    && WampAnswers.Merged(call, corr, channel, m.kwargs)
  }

  /** Hearing an event changes the whole system by the effect the client's method reports, and by nothing else. */
  lemma {:induction false} HearPerforms(s: State, n: nat, e: Envelope, ok: bool)
    requires n < |s.clients| && forall corr :: corr in s.clients[n].pending ==> corr in s.calls
    ensures OnHear(s, n, e, ok) == Performed(s, n, e, ok, EffectOf(s.clients[n], e.msg))
  {
    assert s.clients[n := s.clients[n]] == s.clients;
  }

  class WampClient {
    const channel: string
    var handlers: set<string>
    var pending: set<string>
    var out: Outbound<Envelope>
    var isConnected: bool

    ghost function View(): Client
      reads this
    {
      Client(channel, handlers, pending, out)
    }

    ghost predicate Valid()
      reads this
    {
      Conserves(out) && (isConnected <==> out.link.Up?)
    }

    constructor (channel: string)
      ensures Valid() && View() == Client(channel, {}, {}, Fresh())
    {
      this.channel := channel;
      handlers, pending, out, isConnected := {}, {}, Fresh(), false;
      new;
      FreshConserves<Envelope>();
    }

    method Register(function_: string)
      requires Valid()
      modifies `handlers
      ensures Valid() && handlers == old(handlers) + {function_}
    {
      handlers := handlers + {function_};
    }

    // What the listen loop does to the outbound side and to is_connected.
    method Turn(op: Op<Envelope>) returns (taken: Option<Envelope>)
      requires Valid() && Can(out, op) && !op.Lock?
      modifies `out, `isConnected
      ensures Valid() && out == Do(old(out), op)
      ensures taken == if op == Drain(true) then Some(old(out).queue[0]) else None
    {
      StepConserves(out, op);
      taken := None;
      match op {
        case Drain(ok) =>
          if ok { taken := Some(out.queue[0]); }
          isConnected := ok;
        case Connect => isConnected := true;
        case Drop => isConnected := false;
        case Stop => isConnected := false;
        case _ =>
      }
      out := Do(out, op);
    }

    /** publish: refused while listen was never started, otherwise the lock is taken. */
    method Publish(topic: string, kwargs: Json) returns (r: Result<(), string>)
      requires Valid() && (out.link.Idle? || out.holder.None?)
      modifies `out
      ensures Valid()
      ensures r.Err? <==> old(out).link.Idle?
      ensures r.Ok? ==> out.holder == Some(Envelope(Message(topic, None, None, None, Some(kwargs)), ByPublish))
      ensures out == if r.Ok? then Do(old(out), Lock(Envelope(PublishMessage(topic, kwargs), ByPublish))) else old(out)
    {
      if out.link.Idle? { return Err("not connected — call listen() first"); }
      var lock := Lock(Envelope(PublishMessage(topic, kwargs), ByPublish));
      StepConserves(out, lock);
      out := Do(out, lock);
      r := Ok(());
    }

    /** call, first part: the entry goes into the table. */
    method BeginCall(corr: string, ghost s: State, ghost call: Call)
      requires Valid() && call.caller < |s.clients| && s.clients[call.caller] == View()
      modifies `pending
      ensures Valid() && View() == OnBegin(s, corr, call).clients[call.caller]
    {
      pending := pending + {corr};
    }

    /** call, second part: without a sender it fails at once and its entry stays behind. */
    method SendCall(function_: string, target: string, corr: string, args: Json, kwargs: Json, ghost s: State)
      returns (sending: bool)
      requires Valid() && (out.link.Idle? || out.holder.None?) && Calling(s, corr, View())
      requires var call := s.calls[corr];
        call.function_ == function_ && call.target == target && call.args == args && call.kwargs == kwargs
      modifies `out
      ensures Valid() && View() == OnAcquire(s, corr).clients[s.calls[corr].caller]
      ensures OnAcquire(s, corr).calls[corr].phase == if sending then Sending else Returned(NotSent(false))
      ensures sending <==> !old(out).link.Idle?
      ensures sending ==> out.holder.Some? && out.holder.value.origin.ByCall? && Sends(out.holder.value.msg, s, corr)
    {
      if out.link.Idle? { return false; }
      var lock := Lock(Envelope(CallMessage(function_, target, corr, channel, args, kwargs), ByCall));
      StepConserves(out, lock);
      out := Do(out, lock);
      WampAnswers.KwargsMerged(s.calls[corr], corr, channel);
      sending := true;
    }

    /** call, last part, after thirty seconds. */
    method GiveUpCall(corr: string, ghost s: State)
      requires Valid() && Calling(s, corr, View())
      modifies `pending
      ensures Valid() && View() == OnGiveUp(s, corr).clients[s.calls[corr].caller]
    {
      pending := pending - {corr};
    }

    /** handle_message on an event. */
    method HandleEvent(m: Message) returns (effect: Effect)
      requires Valid()
      modifies `pending
      ensures Valid() && effect == EffectOf(old(View()), m) && View() == Settled(old(View()), effect)
    {
      var kwargs := Transit(m.kwargs);
      var function_ := if kwargs.Some? then AsStr(Get(kwargs.value, "function")) else None;
      if function_.Some? {
        if function_.value in handlers { return Spawn(function_.value); }
        if m.corr.Some? && m.replyTo.Some? {
          return Direct(MakeReply(m.replyTo.value, m.corr.value, NoHandler(function_.value)));
        }
        return Nothing;
      }
      if m.corr.Some? && m.corr.value in pending {
        pending := pending - {m.corr.value};
        var isError := kwargs.Some? && OrElse(AsBool(Get(kwargs.value, "is_error")), false);
        var payload := if kwargs.Some? then kwargs.value else OrElse(Transit(m.args), Null);
        return Complete(m.corr.value, if isError then Err(payload) else Ok(payload));
      }
      return Nothing;
    }
  }
}
