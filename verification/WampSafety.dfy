/** What holds in every run of the call protocol of module Wamp, for any number of clients and any interleaving of
    their steps with whatever the broker drops, repeats, delays and reorders. Three invariants are kept by every
    event. Provenance: each message on the wire or on its way there is traced to a publish, a call or a concluded
    handler run, each incoming call to a call that was made, each answer to a broker error or to such a run. The
    pending table: an id is in a client's table exactly while its call is neither answered nor given up, the lock
    holder's call is the one that is being sent, and an unsent call returned late only on a closed link. Conservation
    is that of module Outbound, client by client. A call that has returned never changes again. */
module WampSafety {
  import opened Prelude
  import opened Json
  import opened Outbound
  import opened Wamp

  // ── where everything in flight comes from ────────────────────────────────

  // An incoming call is the call with this id, at the client it was meant for.
  predicate Asked(s: State, r: Incoming, corr: string) {
    && corr in s.calls && s.calls[corr].caller < |s.clients| && r.at < |s.clients|
    && var call := s.calls[corr];
       var channel := s.clients[call.caller].channel;
       && r.corr == Some(corr) && r.replyTo == Some(channel)
       && s.clients[r.at].channel == call.target
       && r.function_ == call.function_ && r.args == Transit(Some(call.args))
       && r.kwargs == Some(CallKwargs(call.function_, corr, channel, call.kwargs))
  }

  predicate Traced(s: State, e: Envelope) {
    match e.origin
    case ByPublish => e.msg.corr.None? && e.msg.replyTo.None?
    case ByCall =>
      && e.msg.corr.Some? && e.msg.corr.value in s.calls && s.calls[e.msg.corr.value].caller < |s.clients|
      && e.msg == MessageOf(s, e.msg.corr.value)
    case ByRun(k) =>
      k < |s.runs| && var r := s.runs[k]; r.corr.Some? && r.replyTo.Some? && r.outcome.Some? && e.msg == ReplyOf(r)
  }

  predicate RunTraced(s: State, r: Incoming) {
    && r.at < |s.clients|
    && (r.corr.Some? && r.replyTo.Some? ==> Asked(s, r, r.corr.value))
    && (!r.handled ==> r.outcome == Some(NoHandler(r.function_)))
  }

  predicate SlotTraced(s: State, corr: string, slot: Slot) {
    match slot.cause
    case Broker(text) => slot.verdict == BrokerVerdict(text)
    case Event(e) =>
      && Traced(s, e) && e.origin.ByRun? && e.msg.corr == Some(corr)
      && FunctionOf(e.msg).None? && slot.verdict == HeardVerdict(e.msg)
  }

  predicate Carries(o: Outbound<Envelope>, e: Envelope) {
    e in o.queue || o.holder == Some(e)
  }

  ghost predicate ClientTraced(s: State, c: Client) {
    forall e :: Carries(c.out, e) ==> Traced(s, e)
  }

  predicate CallTraced(s: State, corr: string, call: Call) {
    && (call.slot.Some? ==> SlotTraced(s, corr, call.slot.value))
    && (call.phase.Returned? && call.phase.answer.Replied? ==>
          call.slot.Some? && call.phase.answer.verdict == call.slot.value.verdict)
  }

  ghost predicate Provenance(s: State) {
    && (forall e :: e in s.wire ==> Traced(s, e))
    && (forall n :: 0 <= n < |s.clients| ==> ClientTraced(s, s.clients[n]))
    && (forall k :: 0 <= k < |s.runs| ==> RunTraced(s, s.runs[k]))
    && (forall corr :: corr in s.calls ==> CallTraced(s, corr, s.calls[corr]))
  }

  // Facts once established stay: who called what, which incoming calls there were, their verdicts.
  predicate SameCall(a: Call, b: Call) {
    a.caller == b.caller && a.function_ == b.function_ && a.target == b.target && a.args == b.args && a.kwargs == b.kwargs
  }

  predicate SameRun(a: Incoming, b: Incoming) {
    b == a.(outcome := b.outcome, answered := b.answered) && (a.outcome.Some? ==> a.outcome == b.outcome)
  }

  ghost predicate Grows(s: State, t: State) {
    && |s.clients| == |t.clients|
    && (forall n :: 0 <= n < |s.clients| ==> s.clients[n].channel == t.clients[n].channel)
    && (forall corr :: corr in s.calls ==> corr in t.calls && SameCall(s.calls[corr], t.calls[corr]))
    && |s.runs| <= |t.runs|
    && (forall k :: 0 <= k < |s.runs| ==> SameRun(s.runs[k], t.runs[k]))
  }

  lemma {:induction false} ChannelStays(s: State, ev: Event, n: nat)
    requires Enabled(s, ev) && n < |s.clients|
    ensures var t := After(s, ev); |t.clients| == |s.clients| && t.clients[n].channel == s.clients[n].channel
  {
  }

  lemma {:induction false} CallStays(s: State, ev: Event, corr: string)
    requires Enabled(s, ev) && corr in s.calls
    ensures var t := After(s, ev); corr in t.calls && SameCall(s.calls[corr], t.calls[corr])
  {
  }

  lemma {:induction false} RunStays(s: State, ev: Event, k: nat)
    requires Enabled(s, ev) && k < |s.runs|
    ensures var t := After(s, ev); |s.runs| <= |t.runs| && SameRun(s.runs[k], t.runs[k])
  {
  }

  lemma {:induction false} CountsGrow(s: State, ev: Event)
    requires Enabled(s, ev)
    ensures |s.clients| == |After(s, ev).clients| && |s.runs| <= |After(s, ev).runs|
  {
  }

  lemma {:induction false} StepGrows(s: State, ev: Event)
    requires Enabled(s, ev)
    ensures Grows(s, After(s, ev))
  {
    CountsGrow(s, ev);
    forall n: nat | n < |s.clients|
      ensures s.clients[n].channel == After(s, ev).clients[n].channel
    {
      ChannelStays(s, ev, n);
    }
    forall corr | corr in s.calls
      ensures corr in After(s, ev).calls && SameCall(s.calls[corr], After(s, ev).calls[corr])
    {
      CallStays(s, ev, corr);
    }
    forall k: nat | k < |s.runs|
      ensures SameRun(s.runs[k], After(s, ev).runs[k])
    {
      RunStays(s, ev, k);
    }
  }

  lemma {:induction false} TracedStays(s: State, t: State, e: Envelope)
    requires Grows(s, t) && Traced(s, e)
    ensures Traced(t, e)
  {
  }

  lemma {:induction false} RunTracedStays(s: State, t: State, r: Incoming)
    requires Grows(s, t) && RunTraced(s, r)
    ensures RunTraced(t, r)
  {
  }

  lemma {:induction false} CallTracedStays(s: State, t: State, corr: string, call: Call)
    requires Grows(s, t) && CallTraced(s, corr, call)
    ensures CallTraced(t, corr, call)
  {
    if call.slot.Some? && call.slot.value.cause.Event? {
      TracedStays(s, t, call.slot.value.cause.e);
    }
  }

  lemma {:induction false} WireTraced(s: State, ev: Event, e: Envelope)
    requires Provenance(s) && Enabled(s, ev) && e in After(s, ev).wire
    ensures Traced(After(s, ev), e)
  {
    var t := After(s, ev);
    StepGrows(s, ev);
    if e in s.wire {
      TracedStays(s, t, e);
    } else if ev.Drained? {
      assert Carries(s.clients[ev.n].out, e);
      TracedStays(s, t, e);
    }
  }

  // Only three events put a message into the outbound side of a client.
  predicate Issues(s: State, ev: Event, e: Envelope) {
    match ev
    case Publish(n, topic, kwargs) => e == Envelope(PublishMessage(topic, kwargs), ByPublish)
    case Acquire(corr) =>
      corr in s.calls && s.calls[corr].caller < |s.clients| && e == Envelope(MessageOf(s, corr), ByCall)
    case Reply(k, _) =>
      k < |s.runs| && var r := s.runs[k];
      r.corr.Some? && r.replyTo.Some? && r.outcome.Some? && e == Envelope(ReplyOf(r), ByRun(k))
    case _ => false
  }

  lemma {:induction false} OpCarries(o: Outbound<Envelope>, op: Op<Envelope>, e: Envelope)
    requires Can(o, op) && Carries(Do(o, op), e)
    ensures Carries(o, e) || op == Lock(e)
  {
  }

  // The families of events: the socket and the lock holder, the callers, what arrives and what handlers do.
  predicate ByLoop(ev: Event) {
    ev.Register? || ev.Net? || ev.Publish? || ev.Pushed? || ev.Failed? || ev.Drained?
  }

  predicate ByCaller(ev: Event) {
    ev.Begin? || ev.Acquire? || ev.Take? || ev.Expire? || ev.GiveUp?
  }

  predicate ByMessage(ev: Event) {
    ev.Hear? || ev.BrokerError? || ev.Finish? || ev.Reply?
  }

  lemma {:induction false} IssuedByLoop(s: State, ev: Event, n: nat, e: Envelope)
    requires Enabled(s, ev) && ByLoop(ev) && n < |s.clients| == |After(s, ev).clients|
    requires Carries(After(s, ev).clients[n].out, e)
    ensures Carries(s.clients[n].out, e) || Issues(s, ev, e)
  {
    var o := s.clients[n].out;
    match ev {
      case Net(m, op) => if m == n { OpCarries(o, op, e); }
      case Publish(m, topic, kwargs) =>
        if m == n { OpCarries(o, Lock(Envelope(PublishMessage(topic, kwargs), ByPublish)), e); }
      case Pushed(m) => if m == n { OpCarries(o, Push, e); }
      case Failed(m) => if m == n { OpCarries(o, Refused, e); }
      case Drained(m, ok, _) => if m == n { OpCarries(o, Drain(ok), e); }
      case _ =>
    }
  }

  lemma {:induction false} IssuedByCaller(s: State, ev: Event, n: nat, e: Envelope)
    requires Enabled(s, ev) && ByCaller(ev) && n < |s.clients| == |After(s, ev).clients|
    requires Carries(After(s, ev).clients[n].out, e)
    ensures Carries(s.clients[n].out, e) || Issues(s, ev, e)
  {
  }

  lemma {:induction false} IssuedByMessage(s: State, ev: Event, n: nat, e: Envelope)
    requires Enabled(s, ev) && ByMessage(ev) && n < |s.clients| == |After(s, ev).clients|
    requires Carries(After(s, ev).clients[n].out, e)
    ensures Carries(s.clients[n].out, e) || Issues(s, ev, e)
  {
  }

  lemma {:induction false} IssuedOrCarried(s: State, ev: Event, n: nat, e: Envelope)
    requires Enabled(s, ev) && n < |s.clients| == |After(s, ev).clients|
    requires Carries(After(s, ev).clients[n].out, e)
    ensures Carries(s.clients[n].out, e) || Issues(s, ev, e)
  {
    if ByLoop(ev) {
      IssuedByLoop(s, ev, n, e);
    } else if ByCaller(ev) {
      IssuedByCaller(s, ev, n, e);
    } else {
      IssuedByMessage(s, ev, n, e);
    }
  }

  lemma {:induction false} IssuedTraced(s: State, ev: Event, e: Envelope)
    requires Enabled(s, ev) && Issues(s, ev, e)
    ensures Traced(s, e)
  {
  }

  lemma {:induction false} CarriedTraced(s: State, ev: Event, n: nat, e: Envelope)
    requires Provenance(s) && Enabled(s, ev) && n < |s.clients|
    requires n < |After(s, ev).clients| && Carries(After(s, ev).clients[n].out, e)
    ensures Traced(After(s, ev), e)
  {
    StepGrows(s, ev);
    CountsGrow(s, ev);
    IssuedOrCarried(s, ev, n, e);
    if Carries(s.clients[n].out, e) {
      assert ClientTraced(s, s.clients[n]);
    } else {
      IssuedTraced(s, ev, e);
    }
    TracedStays(s, After(s, ev), e);
  }

  // A call heard from the wire becomes the next incoming call.
  lemma {:induction false} Arrives(s: State, ev: Event, k: nat)
    requires Enabled(s, ev) && |s.runs| <= k < |After(s, ev).runs|
    ensures ev.Hear? && ev.e in s.wire && ev.n < |s.clients| && ev.e.msg.topic == s.clients[ev.n].channel
    ensures var (r, m) := (After(s, ev).runs[k], ev.e.msg);
      && Some(r.function_) == FunctionOf(m) && r.at == ev.n && r.args == Transit(m.args) && r.kwargs == Transit(m.kwargs)
      && r.corr == m.corr && r.replyTo == m.replyTo && (!r.handled ==> r.outcome == Some(NoHandler(r.function_)))
  {
  }

  // What run k looked like before: outcomes are only added to handled runs.
  lemma {:induction false} OutcomeStays(s: State, ev: Event, k: nat)
    requires Enabled(s, ev) && k < |s.runs| <= |After(s, ev).runs|
    ensures After(s, ev).runs[k].outcome == s.runs[k].outcome || s.runs[k].handled
  {
  }

  lemma {:induction false} IncomingTraced(s: State, ev: Event, k: nat)
    requires Provenance(s) && Enabled(s, ev) && k < |After(s, ev).runs|
    ensures RunTraced(After(s, ev), After(s, ev).runs[k])
  {
    var t := After(s, ev);
    StepGrows(s, ev);
    if k < |s.runs| {
      RunTracedStays(s, t, s.runs[k]);
      OutcomeStays(s, ev, k);
    } else {
      Arrives(s, ev, k);
      TracedStays(s, t, ev.e);
    }
  }

  // ── the pending table ────────────────────────────────────────────────────

  // A call whose entry nobody has taken out yet: unanswered, and neither timed out nor answered.
  predicate Live(call: Call) {
    call.slot.None? && (call.phase.Returned? ==> call.phase.answer.NotSent?)
  }

  predicate TableAt(s: State, n: nat, corr: string)
    requires n < |s.clients|
  {
    corr in s.clients[n].pending <==> corr in s.calls && s.calls[corr].caller == n && Live(s.calls[corr])
  }

  predicate HolderAt(s: State, n: nat)
    requires n < |s.clients|
  {
    var held := HeldCall(s, n);
    held.Some? ==> s.calls[held.value].phase.Sending? && s.calls[held.value].caller == n
  }

  predicate LateAt(s: State, corr: string)
    requires corr in s.calls
  {
    var call := s.calls[corr];
    && call.caller < |s.clients|
    && (call.phase == Returned(NotSent(true)) ==> s.clients[call.caller].out.link.Closed?)
    && (s.clients[call.caller].out.link.Idle? ==> call.slot.None?)
  }

  ghost predicate Table(s: State) {
    && (forall n: nat, corr | n < |s.clients| :: TableAt(s, n, corr))
    && (forall n: nat | n < |s.clients| :: HolderAt(s, n))
    && (forall corr | corr in s.calls :: LateAt(s, corr))
  }

  lemma {:induction false} SettleTable(s: State, m: nat, about: string, slot: Slot, n: nat, corr: string)
    requires Table(s) && m < |s.clients| && n < |s.clients|
    ensures TableAt(Settle(s, m, about, slot), n, corr)
  {
    assert TableAt(s, n, corr) && TableAt(s, m, about);
  }

  lemma {:induction false} OnHolderTable(s: State, m: nat, op: Op<Envelope>, phase: Phase, n: nat, corr: string)
    requires Table(s) && m < |s.clients| && n < |s.clients| && Can(s.clients[m].out, op)
    requires phase.Waiting? || phase == Returned(NotSent(true))
    ensures TableAt(OnHolder(s, m, op, phase), n, corr)
  {
    assert TableAt(s, n, corr) && HolderAt(s, m);
  }

  lemma {:induction false} TableByLoop(s: State, ev: Event, n: nat, corr: string)
    requires Table(s) && Enabled(s, ev) && ByLoop(ev) && n < |s.clients| == |After(s, ev).clients|
    ensures TableAt(After(s, ev), n, corr)
  {
    assert TableAt(s, n, corr);
    match ev {
      case Pushed(m) => OnHolderTable(s, m, Push, Waiting, n, corr);
      case Failed(m) => OnHolderTable(s, m, Refused, Returned(NotSent(true)), n, corr);
      case _ =>
    }
  }

  lemma {:induction false} TableByCaller(s: State, ev: Event, n: nat, corr: string)
    requires Table(s) && Enabled(s, ev) && ByCaller(ev) && n < |s.clients| == |After(s, ev).clients|
    ensures TableAt(After(s, ev), n, corr)
  {
    assert TableAt(s, n, corr);
  }

  lemma {:induction false} TableByMessage(s: State, ev: Event, n: nat, corr: string)
    requires Table(s) && Enabled(s, ev) && ByMessage(ev) && n < |s.clients| == |After(s, ev).clients|
    ensures TableAt(After(s, ev), n, corr)
  {
    assert TableAt(s, n, corr);
    match ev {
      case Hear(m, e, _) =>
        if FunctionOf(e.msg).None? && e.msg.corr.Some? {
          SettleTable(s, m, e.msg.corr.value, Slot(HeardVerdict(e.msg), Cause.Event(e)), n, corr);
        }
      case BrokerError(m, about, text) =>
        if about.Some? { SettleTable(s, m, about.value, Slot(BrokerVerdict(text), Broker(text)), n, corr); }
      case _ =>
    }
  }

  lemma {:induction false} TableStep(s: State, ev: Event, n: nat, corr: string)
    requires Table(s) && Enabled(s, ev) && n < |s.clients| == |After(s, ev).clients|
    ensures TableAt(After(s, ev), n, corr)
  {
    if ByLoop(ev) {
      TableByLoop(s, ev, n, corr);
    } else if ByCaller(ev) {
      TableByCaller(s, ev, n, corr);
    } else {
      TableByMessage(s, ev, n, corr);
    }
  }

  lemma {:induction false} OnHolderHolder(s: State, m: nat, op: Op<Envelope>, phase: Phase, n: nat)
    requires Table(s) && m < |s.clients| && n < |s.clients| && Can(s.clients[m].out, op) && (op.Push? || op.Refused?)
    ensures HolderAt(OnHolder(s, m, op, phase), n)
  {
    assert HolderAt(s, n) && HolderAt(s, m);
  }

  lemma {:induction false} BeginHolder(s: State, c: string, call: Call, n: nat)
    requires Provenance(s) && Table(s) && Enabled(s, Begin(c, call)) && n < |s.clients|
    ensures HolderAt(OnBegin(s, c, call), n)
  {
    var h := s.clients[n].out.holder;
    assert HolderAt(s, n) && (h.Some? ==> Carries(s.clients[n].out, h.value));
  }

  lemma {:induction false} AcquireHolder(s: State, c: string, n: nat)
    requires Table(s) && Enabled(s, Acquire(c)) && n < |s.clients|
    ensures HolderAt(OnAcquire(s, c), n)
  {
    assert HolderAt(s, n);
  }

  lemma {:induction false} PhaseHolder(s: State, c: string, phase: Phase, n: nat)
    requires c in s.calls && !s.calls[c].phase.Sending? && n < |s.clients| && HolderAt(s, n)
    ensures HolderAt(WithPhase(s, c, phase), n)
  {
  }

  lemma {:induction false} HolderByLoop(s: State, ev: Event, n: nat)
    requires Table(s) && Enabled(s, ev) && ByLoop(ev) && n < |s.clients| == |After(s, ev).clients|
    ensures HolderAt(After(s, ev), n)
  {
    assert HolderAt(s, n);
    match ev {
      case Pushed(m) => OnHolderHolder(s, m, Push, Waiting, n);
      case Failed(m) => OnHolderHolder(s, m, Refused, Returned(NotSent(true)), n);
      case _ =>
    }
  }

  lemma {:induction false} HolderByCaller(s: State, ev: Event, n: nat)
    requires Provenance(s) && Table(s) && Enabled(s, ev) && ByCaller(ev) && n < |s.clients| == |After(s, ev).clients|
    ensures HolderAt(After(s, ev), n)
  {
    assert HolderAt(s, n);
    match ev {
      case Begin(c, call) => BeginHolder(s, c, call, n);
      case Acquire(c) => AcquireHolder(s, c, n);
      case Take(c) => PhaseHolder(s, c, Returned(Replied(s.calls[c].slot.value.verdict)), n);
      case Expire(c) => PhaseHolder(s, c, Expired, n);
      case GiveUp(_) =>
    }
  }

  lemma {:induction false} SettleHolder(s: State, m: nat, about: string, slot: Slot, n: nat)
    requires m < |s.clients| && n < |s.clients| && HolderAt(s, n)
    ensures HolderAt(Settle(s, m, about, slot), n)
  {
  }

  lemma {:induction false} ReplyHolder(s: State, k: nat, got: bool, n: nat)
    requires Enabled(s, Reply(k, got)) && n < |s.clients| && HolderAt(s, n)
    ensures HolderAt(OnReply(s, k, got), n)
  {
  }

  lemma {:induction false} HolderByMessage(s: State, ev: Event, n: nat)
    requires Table(s) && Enabled(s, ev) && ByMessage(ev) && n < |s.clients| == |After(s, ev).clients|
    ensures HolderAt(After(s, ev), n)
  {
    assert HolderAt(s, n);
    match ev {
      case Hear(m, e, _) =>
        if FunctionOf(e.msg).None? && e.msg.corr.Some? {
          SettleHolder(s, m, e.msg.corr.value, Slot(HeardVerdict(e.msg), Cause.Event(e)), n);
        }
      case BrokerError(m, about, text) =>
        if about.Some? { SettleHolder(s, m, about.value, Slot(BrokerVerdict(text), Broker(text)), n); }
      case Reply(k, got) => ReplyHolder(s, k, got, n);
      case Finish(_, _) =>
    }
  }

  lemma {:induction false} HolderStep(s: State, ev: Event, n: nat)
    requires Provenance(s) && Table(s) && Enabled(s, ev) && n < |s.clients| == |After(s, ev).clients|
    ensures HolderAt(After(s, ev), n)
  {
    if ByLoop(ev) {
      HolderByLoop(s, ev, n);
    } else if ByCaller(ev) {
      HolderByCaller(s, ev, n);
    } else {
      HolderByMessage(s, ev, n);
    }
  }

  lemma {:induction false} LinkStep(s: State, ev: Event, n: nat)
    requires Enabled(s, ev) && n < |s.clients| == |After(s, ev).clients|
    ensures !s.clients[n].out.link.Idle? ==> !After(s, ev).clients[n].out.link.Idle?
    ensures s.clients[n].out.link.Closed? ==> After(s, ev).clients[n].out.link.Closed?
  {
  }

  // A call turns late only when its own message is refused.
  lemma {:induction false} TurnsLate(s: State, ev: Event, corr: string)
    requires Enabled(s, ev) && corr in s.calls && corr in After(s, ev).calls
    requires After(s, ev).calls[corr].phase == Returned(NotSent(true)) && s.calls[corr].phase != Returned(NotSent(true))
    ensures ev.Failed? && ev.n < |s.clients| && HeldCall(s, ev.n) == Some(corr) && s.clients[ev.n].out.link.Closed?
  {
  }

  lemma {:induction false} BeginsOnly(s: State, ev: Event, corr: string)
    requires Enabled(s, ev) && corr !in s.calls && corr in After(s, ev).calls
    ensures ev.Begin? && corr == ev.corr
  {
  }

  // An event by which client n learns what became of this call.
  predicate Settles(ev: Event, n: nat, corr: string) {
    match ev
    case Hear(m, e, _) => m == n && FunctionOf(e.msg).None? && e.msg.corr == Some(corr)
    case BrokerError(m, about, _) => m == n && about == Some(corr)
    case _ => false
  }

  // A call is answered only at its own client, while that one is connected.
  lemma {:induction false} AnsweredAt(s: State, ev: Event, corr: string)
    requires Table(s) && Enabled(s, ev) && corr in s.calls && corr in After(s, ev).calls
    requires s.calls[corr].slot.None? && After(s, ev).calls[corr].slot.Some?
    ensures s.calls[corr].caller < |s.clients| && Settles(ev, s.calls[corr].caller, corr)
    ensures s.clients[s.calls[corr].caller].out.link.Up?
  {
    if ev.Hear? || ev.BrokerError? { assert TableAt(s, ev.n, corr); }
  }

  lemma {:induction false} LateStep(s: State, ev: Event, corr: string)
    requires Table(s) && Enabled(s, ev) && corr in After(s, ev).calls
    ensures LateAt(After(s, ev), corr)
  {
    CountsGrow(s, ev);
    if corr in s.calls {
      assert LateAt(s, corr);
      CallStays(s, ev, corr);
      LinkStep(s, ev, s.calls[corr].caller);
      if After(s, ev).calls[corr].phase == Returned(NotSent(true)) && s.calls[corr].phase != Returned(NotSent(true)) {
        TurnsLate(s, ev, corr);
        assert HolderAt(s, ev.n);
      }
      if s.calls[corr].slot.None? && After(s, ev).calls[corr].slot.Some? {
        AnsweredAt(s, ev, corr);
      }
    } else {
      BeginsOnly(s, ev, corr);
    }
  }

  lemma {:induction false} CallHasFunction(s: State, corr: string)
    requires corr in s.calls && s.calls[corr].caller < |s.clients|
    ensures FunctionOf(MessageOf(s, corr)) == Some(s.calls[corr].function_)
  {
  }

  // What answers a call: the reply of an incoming call, never another call or a plain event.
  lemma {:induction false} HeardSlot(s: State, e: Envelope)
    requires Traced(s, e) && FunctionOf(e.msg).None? && e.msg.corr.Some?
    ensures SlotTraced(s, e.msg.corr.value, Slot(HeardVerdict(e.msg), Cause.Event(e)))
  {
    if e.origin.ByCall? {
      CallHasFunction(s, e.msg.corr.value);
    }
  }

  lemma {:induction false} SettleTraced(s: State, n: nat, about: string, slot: Slot, corr: string)
    requires Provenance(s) && Table(s) && n < |s.clients| && SlotTraced(s, about, slot) && corr in s.calls
    ensures CallTraced(s, corr, Settle(s, n, about, slot).calls[corr])
  {
    assert CallTraced(s, corr, s.calls[corr]) && TableAt(s, n, about);
  }

  // Apart from answers that arrive, a call's record only changes its phase.
  lemma {:induction false} PhaseOnly(s: State, ev: Event, corr: string)
    requires Enabled(s, ev) && !ev.Hear? && !ev.BrokerError? && corr in s.calls && corr in After(s, ev).calls
    ensures var (a, b) := (s.calls[corr], After(s, ev).calls[corr]);
      && b == a.(phase := b.phase)
      && (b.phase != a.phase && b.phase.Returned? && b.phase.answer.Replied? ==>
            a.slot.Some? && b.phase.answer.verdict == a.slot.value.verdict)
  {
  }

  lemma {:induction false} CallTracedStep(s: State, ev: Event, corr: string)
    requires Provenance(s) && Table(s) && Enabled(s, ev) && corr in After(s, ev).calls
    ensures CallTraced(After(s, ev), corr, After(s, ev).calls[corr])
  {
    var t := After(s, ev);
    if corr !in s.calls {
      BeginsOnly(s, ev, corr);
    } else {
      StepGrows(s, ev);
      assert CallTraced(s, corr, s.calls[corr]);
      if ev.Hear? {
        if FunctionOf(ev.e.msg).None? && ev.e.msg.corr.Some? {
          HeardSlot(s, ev.e);
          SettleTraced(s, ev.n, ev.e.msg.corr.value, Slot(HeardVerdict(ev.e.msg), Cause.Event(ev.e)), corr);
        }
      } else if ev.BrokerError? {
        if ev.about.Some? {
          SettleTraced(s, ev.n, ev.about.value, Slot(BrokerVerdict(ev.text), Broker(ev.text)), corr);
        }
      } else {
        PhaseOnly(s, ev, corr);
      }
      CallTracedStays(s, t, corr, t.calls[corr]);
    }
  }

  // ── every run ────────────────────────────────────────────────────────────

  ghost predicate Conserving(s: State) {
    forall n: nat | n < |s.clients| :: Conserves(s.clients[n].out)
  }

  ghost predicate Good(s: State) {
    Provenance(s) && Table(s) && Conserving(s)
  }

  // The one thing an event does to the outbound side of a client, if any.
  function OpOf(s: State, ev: Event, n: nat): Option<Op<Envelope>>
    requires Enabled(s, ev)
  {
    match ev
    case Net(m, op) => if m == n then Some(op) else None
    case Publish(m, topic, kwargs) =>
      if m == n then Some(Lock(Envelope(PublishMessage(topic, kwargs), ByPublish))) else None
    case Pushed(m) => if m == n then Some(Push) else None
    case Failed(m) => if m == n then Some(Refused) else None
    case Drained(m, ok, _) => if m == n then Some(Drain(ok)) else None
    case Acquire(corr) =>
      if s.calls[corr].caller == n && !s.clients[n].out.link.Idle? then Some(CallLock(s, corr)) else None
    case Reply(k, got) =>
      var r := s.runs[k];
      if r.at == n && got && r.corr.Some? && r.replyTo.Some? then Some(Lock(Envelope(ReplyOf(r), ByRun(k)))) else None
    case _ => None
  }

  lemma {:induction false} OutStep(s: State, ev: Event, n: nat)
    requires Enabled(s, ev) && n < |s.clients| == |After(s, ev).clients|
    ensures var op := OpOf(s, ev, n);
      && (op.Some? ==> Can(s.clients[n].out, op.value))
      && After(s, ev).clients[n].out == if op.Some? then Do(s.clients[n].out, op.value) else s.clients[n].out
  {
  }

  lemma {:induction false} ConserveStep(s: State, ev: Event, n: nat)
    requires Conserving(s) && Enabled(s, ev) && n < |s.clients| == |After(s, ev).clients|
    ensures Conserves(After(s, ev).clients[n].out)
  {
    OutStep(s, ev, n);
    var op := OpOf(s, ev, n);
    if op.Some? {
      StepConserves(s.clients[n].out, op.value);
    }
  }

  lemma {:induction false} ProvenanceStep(s: State, ev: Event)
    requires Provenance(s) && Table(s) && Enabled(s, ev)
    ensures Provenance(After(s, ev))
  {
    var t := After(s, ev);
    CountsGrow(s, ev);
    forall e | e in t.wire ensures Traced(t, e) { WireTraced(s, ev, e); }
    forall n: nat | n < |t.clients| ensures ClientTraced(t, t.clients[n]) {
      forall e | Carries(t.clients[n].out, e) ensures Traced(t, e) { CarriedTraced(s, ev, n, e); }
    }
    forall k: nat | k < |t.runs| ensures RunTraced(t, t.runs[k]) { IncomingTraced(s, ev, k); }
    forall corr | corr in t.calls ensures CallTraced(t, corr, t.calls[corr]) { CallTracedStep(s, ev, corr); }
  }

  lemma {:induction false} TablesStep(s: State, ev: Event)
    requires Provenance(s) && Table(s) && Enabled(s, ev)
    ensures Table(After(s, ev))
  {
    var t := After(s, ev);
    CountsGrow(s, ev);
    forall n: nat, corr | n < |t.clients| ensures TableAt(t, n, corr) { TableStep(s, ev, n, corr); }
    forall n: nat | n < |t.clients| ensures HolderAt(t, n) { HolderStep(s, ev, n); }
    forall corr | corr in t.calls ensures LateAt(t, corr) { LateStep(s, ev, corr); }
  }

  lemma {:induction false} StepGood(s: State, ev: Event)
    requires Good(s) && Enabled(s, ev)
    ensures Good(After(s, ev))
  {
    ProvenanceStep(s, ev);
    TablesStep(s, ev);
    CountsGrow(s, ev);
    forall n: nat | n < |After(s, ev).clients| ensures Conserves(After(s, ev).clients[n].out) {
      ConserveStep(s, ev, n);
    }
  }

  lemma {:induction false} StartGood(channels: seq<string>)
    ensures Good(Start(channels))
  {
    var s := Start(channels);
    forall n: nat | n < |s.clients| ensures ClientTraced(s, s.clients[n]) && Conserves(s.clients[n].out) {
      var o := s.clients[n].out;
      assert o == Fresh() && o.queue == [] && Taken(o) == [];
    }
  }

  lemma {:induction false} GoodFrom(s: State, evs: seq<Event>)
    requires Good(s) && EnabledAll(s, evs)
    ensures Good(AfterAll(s, evs))
    decreases |evs|
  {
    if evs != [] {
      StepGood(s, evs[0]);
      GoodFrom(After(s, evs[0]), evs[1..]);
    }
  }

  /** Every run of any number of clients keeps the invariants. */
  lemma {:induction false} AlwaysGood(channels: seq<string>, evs: seq<Event>)
    requires EnabledAll(Start(channels), evs)
    ensures Good(AfterAll(Start(channels), evs))
  {
    StartGood(channels);
    GoodFrom(Start(channels), evs);
  }

  // ── calls return once ────────────────────────────────────────────────────

  lemma {:induction false} CallerStays(s: State, evs: seq<Event>, corr: string)
    requires EnabledAll(s, evs) && corr in s.calls
    ensures corr in AfterAll(s, evs).calls && AfterAll(s, evs).calls[corr].caller == s.calls[corr].caller
    decreases |evs|
  {
    if evs != [] {
      CallStays(s, evs[0], corr);
      CallerStays(After(s, evs[0]), evs[1..], corr);
    }
  }

  lemma {:induction false} ReturnedByHolder(s: State, m: nat, op: Op<Envelope>, phase: Phase, corr: string)
    requires Table(s) && m < |s.clients| && Can(s.clients[m].out, op) && corr in s.calls && s.calls[corr].phase.Returned?
    ensures corr in OnHolder(s, m, op, phase).calls && OnHolder(s, m, op, phase).calls[corr].phase == s.calls[corr].phase
  {
    assert HolderAt(s, m);
  }

  lemma {:induction false} ReturnedStep(s: State, ev: Event, corr: string)
    requires Table(s) && Enabled(s, ev) && corr in s.calls && s.calls[corr].phase.Returned?
    ensures corr in After(s, ev).calls && After(s, ev).calls[corr].phase == s.calls[corr].phase
  {
    if ev.Pushed? {
      ReturnedByHolder(s, ev.n, Push, Waiting, corr);
    } else if ev.Failed? {
      ReturnedByHolder(s, ev.n, Refused, Returned(NotSent(true)), corr);
    }
  }

  /** A call returns at most once: what it returned never changes again. */
  lemma {:induction false} ReturnsOnce(s: State, evs: seq<Event>, corr: string)
    requires Good(s) && EnabledAll(s, evs) && corr in s.calls && s.calls[corr].phase.Returned?
    ensures corr in AfterAll(s, evs).calls && AfterAll(s, evs).calls[corr].phase == s.calls[corr].phase
    decreases |evs|
  {
    if evs != [] {
      StepGood(s, evs[0]);
      ReturnedStep(s, evs[0], corr);
      ReturnsOnce(After(s, evs[0]), evs[1..], corr);
    }
  }
}
