/** What a caller of module Wamp may conclude from an answer. */
module WampAnswers {
  import opened Prelude
  import opened Json
  import opened Outbound
  import opened Wamp
  import opened WampSafety

  // ── what a handler is given ──────────────────────────────────────────────

  // A null argument is read back as an absent one.
  predicate Given(sent: Json, got: Option<Json>) {
    got == if sent == Null then None else Some(sent)
  }

  predicate Own(key: string) {
    key == "function" || key == "correlation_id" || key == "reply_to"
  }

  predicate Holds(fields: map<string, Json>, key: string, text: string) {
    key in fields && fields[key] == Str(text)
  }

  // The caller's keyword arguments, and the three that the protocol puts over them.
  ghost predicate Merged(call: Call, corr: string, channel: string, got: Option<Json>) {
    && got.Some? && got.value.Obj?
    && var fields := got.value.fields;
       && Holds(fields, "function", call.function_)
       && Holds(fields, "correlation_id", corr)
       && Holds(fields, "reply_to", channel)
       && forall key :: !Own(key) ==>
            && (key in fields <==> call.kwargs.Obj? && key in call.kwargs.fields)
            && (key in fields ==> fields[key] == call.kwargs.fields[key])
  }

  // r is this call as it arrived at a client of the channel it was meant for.
  ghost predicate Received(s: State, corr: string, r: Incoming) {
    && corr in s.calls && s.calls[corr].caller < |s.clients| && r.at < |s.clients|
    && var call := s.calls[corr];
       var channel := s.clients[call.caller].channel;
       && s.clients[r.at].channel == call.target && r.function_ == call.function_
       && r.corr == Some(corr) && r.replyTo == Some(channel)
       && Given(call.args, r.args) && Merged(call, corr, channel, r.kwargs)
  }

  lemma {:induction false} KwargsMerged(call: Call, corr: string, channel: string)
    ensures Merged(call, corr, channel, Some(CallKwargs(call.function_, corr, channel, call.kwargs)))
  {
    assert CallKwargs(call.function_, corr, channel, call.kwargs).fields ==
      FieldsOf(call.kwargs)["function" := Str(call.function_)]["correlation_id" := Str(corr)]["reply_to" := Str(channel)];
    assert "function" != "correlation_id" && "function" != "reply_to" && "correlation_id"[0] != "reply_to"[0];
  }

  lemma {:induction false} AskedIsReceived(s: State, r: Incoming, corr: string)
    requires Asked(s, r, corr)
    ensures Received(s, corr, r)
  {
    var call := s.calls[corr];
    KwargsMerged(call, corr, s.clients[call.caller].channel);
  }

  // ── what the caller is told ──────────────────────────────────────────────

  function ContentOf(v: Verdict): Json {
    match v
    case Ok(content) => content
    case Err(content) => content
  }

  // The fields a reply adds where the payload has none of that name.
  predicate Added(key: string, corr: string, failed: bool, value: Json) {
    || (key == "is_result" && value == Bool(true))
    || (key == "correlation_id" && value == Str(corr))
    || (key == "is_error" && failed && value == Bool(true))
  }

  // The payload as concluded, with the fields of the reply added; it is an error to the caller if it says so.
  ghost predicate Told(outcome: Verdict, corr: string, told: Verdict) {
    var (given, heard) := (ContentOf(outcome), ContentOf(told));
    && heard.Obj?
    && (forall key :: given.Obj? && key in given.fields ==> key in heard.fields && heard.fields[key] == given.fields[key])
    && (forall key, value :: !(given.Obj? && key in given.fields) ==>
          (key in heard.fields && heard.fields[key] == value <==> Added(key, corr, outcome.Err?, value)))
    && (told.Err? <==> "is_error" in heard.fields && heard.fields["is_error"] == Bool(true))
  }

  lemma {:induction false} HeardIsTold(replyTo: string, corr: string, outcome: Verdict)
    requires FunctionOf(MakeReply(replyTo, corr, outcome)).None?
    ensures var told := HeardVerdict(MakeReply(replyTo, corr, outcome));
      Told(outcome, corr, told) && (Plain(outcome) <==> (told.Ok? <==> outcome.Ok?))
  {
    var given := ContentOf(outcome);
    var base := ReplyBase(corr, outcome.Err?);
    var fields := base + FieldsOf(given);
    assert MakeReply(replyTo, corr, outcome).kwargs == Some(Obj(fields));
    assert "is_result" != "correlation_id" && "is_result" != "is_error" && "correlation_id"[0] != "is_error"[0];
    assert "function" in fields <==> "function" in FieldsOf(given);
  }

  // ── where the parts of an answer come from ───────────────────────────────

  // The call was made with the arguments on record.
  ghost predicate Made(s: State, evs: seq<Event>, corr: string) {
    corr in s.calls && exists call :: Begin(corr, call) in evs && SameCall(call, s.calls[corr])
  }

  lemma {:induction false} MadeStep(s: State, ev: Event, corr: string)
    requires Enabled(s, ev) && corr in After(s, ev).calls && corr !in s.calls
    ensures ev.Begin? && ev.corr == corr && SameCall(ev.call, After(s, ev).calls[corr])
  {
  }

  lemma {:induction false} CallsAreMade(s: State, evs: seq<Event>, corr: string)
    requires EnabledAll(s, evs) && corr in AfterAll(s, evs).calls
    ensures corr in s.calls || Made(AfterAll(s, evs), evs, corr)
    ensures corr in s.calls ==> SameCall(s.calls[corr], AfterAll(s, evs).calls[corr])
    decreases |evs|
  {
    if evs != [] {
      var t := After(s, evs[0]);
      CallsAreMade(t, evs[1..], corr);
      if corr in s.calls {
        CallStays(s, evs[0], corr);
      } else if corr in t.calls {
        MadeStep(s, evs[0], corr);
        assert Begin(corr, evs[0].call) in evs;
      } else {
        var call :| Begin(corr, call) in evs[1..] && SameCall(call, AfterAll(s, evs).calls[corr]);
        assert Begin(corr, call) in evs;
      }
    }
  }

  predicate HasConcluded(s: State, k: nat, v: Verdict) {
    k < |s.runs| && s.runs[k].handled && s.runs[k].outcome == Some(v)
  }

  lemma {:induction false} FinishStep(s: State, ev: Event, k: nat, v: Verdict)
    requires Enabled(s, ev) && HasConcluded(After(s, ev), k, v) && !HasConcluded(s, k, v)
    ensures ev == Finish(k, v)
  {
  }

  lemma {:induction false} FinishCause(s: State, evs: seq<Event>, k: nat, v: Verdict)
    requires EnabledAll(s, evs) && HasConcluded(AfterAll(s, evs), k, v)
    ensures HasConcluded(s, k, v) || Finish(k, v) in evs
    decreases |evs|
  {
    if evs != [] {
      FinishCause(After(s, evs[0]), evs[1..], k, v);
      if HasConcluded(After(s, evs[0]), k, v) && !HasConcluded(s, k, v) {
        FinishStep(s, evs[0], k, v);
      }
    }
  }

  // Calls are handled where a handler of that name is registered.
  predicate KnownHandler(s: State, r: Incoming) {
    r.handled ==> r.at < |s.clients| && r.function_ in s.clients[r.at].registered
  }

  lemma {:induction false} RegisteredStays(s: State, ev: Event, n: nat)
    requires Enabled(s, ev) && n < |s.clients|
    ensures n < |After(s, ev).clients| && s.clients[n].registered <= After(s, ev).clients[n].registered
  {
  }

  lemma {:induction false} NewHandled(s: State, ev: Event, k: nat)
    requires Enabled(s, ev) && |s.runs| <= k < |After(s, ev).runs|
    ensures KnownHandler(After(s, ev), After(s, ev).runs[k])
  {
    Arrives(s, ev, k);
  }

  lemma {:induction false} HandlerStep(s: State, ev: Event, k: nat)
    requires Enabled(s, ev) && k < |After(s, ev).runs| && (k < |s.runs| ==> KnownHandler(s, s.runs[k]))
    ensures KnownHandler(After(s, ev), After(s, ev).runs[k])
  {
    if k < |s.runs| {
      RunStays(s, ev, k);
      if s.runs[k].handled { RegisteredStays(s, ev, s.runs[k].at); }
    } else {
      NewHandled(s, ev, k);
    }
  }

  lemma {:induction false} HandlersKnown(s: State, evs: seq<Event>, k: nat)
    requires EnabledAll(s, evs) && k < |AfterAll(s, evs).runs| && (k < |s.runs| ==> KnownHandler(s, s.runs[k]))
    ensures KnownHandler(AfterAll(s, evs), AfterAll(s, evs).runs[k])
    decreases |evs|
  {
    if evs != [] {
      if k < |After(s, evs[0]).runs| { HandlerStep(s, evs[0], k); }
      HandlersKnown(After(s, evs[0]), evs[1..], k);
    }
  }

  // ── answers ──────────────────────────────────────────────────────────────

  // The k-th incoming call is this call. A registered handler concluded it as told, or no handler had the name.
  ghost predicate AnsweredBy(s: State, evs: seq<Event>, corr: string, k: nat, told: Verdict) {
    && k < |s.runs| && Received(s, corr, s.runs[k]) && Made(s, evs, corr)
    && var r := s.runs[k];
       && r.outcome.Some? && Told(r.outcome.value, corr, told)
       && (Plain(r.outcome.value) <==> (told.Ok? <==> r.outcome.value.Ok?))
       && (if r.handled then r.function_ in s.clients[r.at].registered && Finish(k, r.outcome.value) in evs
           else r.outcome.value == Err(Obj(map["error" := Str("no handler for '" + r.function_ + "'")])))
  }

  ghost predicate Genuine(s: State, evs: seq<Event>, corr: string)
    requires corr in s.calls && s.calls[corr].phase.Returned? && s.calls[corr].phase.answer.Replied?
  {
    var call := s.calls[corr];
    var told := call.phase.answer.verdict;
    call.slot.Some? &&
    match call.slot.value.cause
    case Broker(text) => told == Err(Obj(map["error" := Str(text)])) && BrokerError(call.caller, Some(corr), text) in evs
    case Event(e) => e.origin.ByRun? && AnsweredBy(s, evs, corr, e.origin.k, told)
  }

  /** A remote answer is an error the broker reported for this very call, or the verdict that the function named by
      the call concluded with, at a client of the target channel and on exactly this call's arguments. */
  lemma {:induction false} AnswersAreGenuine(channels: seq<string>, evs: seq<Event>, corr: string)
    requires EnabledAll(Start(channels), evs) && corr in AfterAll(Start(channels), evs).calls
    requires var phase := AfterAll(Start(channels), evs).calls[corr].phase; phase.Returned? && phase.answer.Replied?
    ensures Genuine(AfterAll(Start(channels), evs), evs, corr)
  {
    AlwaysGood(channels, evs);
    StartGood(channels);
    var s := AfterAll(Start(channels), evs);
    assert CallTraced(s, corr, s.calls[corr]);
    match s.calls[corr].slot.value.cause {
      case Broker(text) => BrokerCause(Start(channels), evs, corr, text);
      case Event(e) => AnsweredIn(channels, evs, corr, e);
    }
  }

  lemma {:induction false} AnsweredIn(channels: seq<string>, evs: seq<Event>, corr: string, e: Envelope)
    requires EnabledAll(Start(channels), evs)
    requires var s := AfterAll(Start(channels), evs);
      Good(s) && corr in s.calls && SlotTraced(s, corr, Slot(HeardVerdict(e.msg), Cause.Event(e)))
    ensures AnsweredBy(AfterAll(Start(channels), evs), evs, corr, e.origin.k, HeardVerdict(e.msg))
  {
    var s, k := AfterAll(Start(channels), evs), e.origin.k;
    var r := s.runs[k];
    assert RunTraced(s, r);
    AskedIsReceived(s, r, corr);
    HeardIsTold(r.replyTo.value, corr, r.outcome.value);
    CallsAreMade(Start(channels), evs, corr);
    HandlersKnown(Start(channels), evs, k);
    if r.handled {
      FinishCause(Start(channels), evs, k, r.outcome.value);
    }
  }

  predicate ToldByBroker(s: State, corr: string, text: string) {
    corr in s.calls && s.calls[corr].slot.Some? && s.calls[corr].slot.value.cause == Broker(text)
  }

  lemma {:induction false} BrokerCauseStep(s: State, ev: Event, corr: string, text: string)
    requires Table(s) && Enabled(s, ev) && ToldByBroker(After(s, ev), corr, text) && !ToldByBroker(s, corr, text)
    ensures ev == BrokerError(After(s, ev).calls[corr].caller, Some(corr), text)
  {
    if corr !in s.calls {
      BeginsOnly(s, ev, corr);
    } else if ev.BrokerError? {
      assert TableAt(s, ev.n, corr);
    } else if !ev.Hear? {
      PhaseOnly(s, ev, corr);
    }
  }

  lemma {:induction false} BrokerCause(s: State, evs: seq<Event>, corr: string, text: string)
    requires Good(s) && EnabledAll(s, evs) && ToldByBroker(AfterAll(s, evs), corr, text)
    ensures ToldByBroker(s, corr, text) || BrokerError(AfterAll(s, evs).calls[corr].caller, Some(corr), text) in evs
    decreases |evs|
  {
    if evs != [] {
      var t := After(s, evs[0]);
      StepGood(s, evs[0]);
      BrokerCause(t, evs[1..], corr, text);
      if ToldByBroker(t, corr, text) && !ToldByBroker(s, corr, text) {
        BrokerCauseStep(s, evs[0], corr, text);
        CallerStays(t, evs[1..], corr);
      }
    }
  }

  // ── what is published ────────────────────────────────────────────────────

  // The message is the topic and the keyword arguments of some publish, and nothing else.
  predicate Published(evs: seq<Event>, m: Message) {
    exists i :: 0 <= i < |evs| && evs[i].Publish? && m == Message(evs[i].topic, None, None, None, Some(evs[i].kwargs))
  }

  predicate Afoot(s: State, e: Envelope) {
    e in s.wire || exists n :: 0 <= n < |s.clients| && Carries(s.clients[n].out, e)
  }

  lemma {:induction false} WireStep(s: State, ev: Event, e: Envelope)
    requires Enabled(s, ev) && e.origin.ByPublish? && e in After(s, ev).wire
    ensures Afoot(s, e)
  {
    if e !in s.wire {
      assert ev.Drained? && Carries(s.clients[ev.n].out, e);
    }
  }

  lemma {:induction false} AfootStep(s: State, ev: Event, e: Envelope)
    requires Enabled(s, ev) && e.origin.ByPublish? && Afoot(After(s, ev), e)
    ensures Afoot(s, e) || Published([ev], e.msg)
  {
    if e in After(s, ev).wire {
      WireStep(s, ev, e);
    } else {
      CountsGrow(s, ev);
      var n :| 0 <= n < |s.clients| && Carries(After(s, ev).clients[n].out, e);
      IssuedOrCarried(s, ev, n, e);
      assert [ev][0] == ev;
    }
  }

  lemma {:induction false} PublishedSince(s: State, evs: seq<Event>, e: Envelope)
    requires EnabledAll(s, evs) && e.origin.ByPublish? && Afoot(AfterAll(s, evs), e)
    ensures Afoot(s, e) || Published(evs, e.msg)
    decreases |evs|
  {
    if evs != [] {
      PublishedSince(After(s, evs[0]), evs[1..], e);
      if Afoot(After(s, evs[0]), e) {
        AfootStep(s, evs[0], e);
      } else {
        assert forall i :: 0 <= i < |evs| - 1 ==> evs[1..][i] == evs[i + 1];
      }
    }
  }

  /** Whatever a publish ever sent carries the topic and the keyword arguments it was given. */
  lemma {:induction false} PublishedAsGiven(channels: seq<string>, evs: seq<Event>, e: Envelope)
    requires EnabledAll(Start(channels), evs) && e.origin.ByPublish? && e in AfterAll(Start(channels), evs).wire
    ensures Published(evs, e.msg)
  {
    var s := Start(channels);
    assert forall n :: 0 <= n < |s.clients| ==> s.clients[n].out == Fresh() && !Carries(s.clients[n].out, e);
    PublishedSince(s, evs, e);
  }
}
