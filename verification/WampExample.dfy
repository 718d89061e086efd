/** The call protocol of module Wamp is not merely safe: a run in which a call succeeds. Caller and callee go
    online, the caller places its call, the callee takes it up, concludes and answers it, and the caller hears
    the answer. */
module WampExample {
  import opened Prelude
  import opened Json
  import opened Outbound
  import opened Wamp

  // A caller and a callee.
  function Two(c0: Client, c1: Client, calls: map<string, Call>, runs: seq<Incoming>, wire: set<Envelope>): State {
    State([c0, c1], calls, runs, wire)
  }

  lemma {:induction false} Set0(c0: Client, c1: Client, c: Client)
    ensures [c0, c1][0 := c] == [c, c1] && [c0, c1][1 := c] == [c0, c]
  {
  }

  lemma {:induction false} Prepend(s: State, ev: Event, t: State, rest: seq<Event>)
    requires Enabled(s, ev) && After(s, ev) == t && EnabledAll(t, rest)
    ensures EnabledAll(s, [ev] + rest) && AfterAll(s, [ev] + rest) == AfterAll(t, rest)
  {
    assert ([ev] + rest)[1..] == rest;
  }

  function Online(queue: seq<Envelope>, holder: Option<Envelope>, enqueued: seq<Envelope>, sent: seq<Envelope>)
    : Outbound<Envelope>
  {
    Outbound(Up, queue, holder, enqueued, sent, [], 0)
  }

  const QUIET: Outbound<Envelope> := Online([], None, [], [])

  lemma {:induction false} FirstTwo(a: string, b: string)
    ensures Start([a, b]) == Two(Client(a, {}, {}, Fresh()), Client(b, {}, {}, Fresh()), map[], [], {})
  {
    var s := Start([a, b]);
    assert s.clients[0] == Client(a, {}, {}, Fresh());
    assert s.clients[1] == Client(b, {}, {}, Fresh());
  }

  lemma {:induction false} GoOnline(a: string, b: string, f: string, rest: seq<Event>) returns (evs: seq<Event>)
    requires EnabledAll(Two(Client(a, {}, {}, QUIET), Client(b, {f}, {}, QUIET), map[], [], {}), rest)
    ensures EnabledAll(Start([a, b]), evs)
    ensures AfterAll(Start([a, b]), evs)
         == AfterAll(Two(Client(a, {}, {}, QUIET), Client(b, {f}, {}, QUIET), map[], [], {}), rest)
  {
    var down := Fresh<Envelope>().(link := Down);
    var a0, a1, a2 := Client(a, {}, {}, Fresh()), Client(a, {}, {}, down), Client(a, {}, {}, QUIET);
    var b0, b1, b2 := Client(b, {}, {}, Fresh()), Client(b, {}, {}, down), Client(b, {}, {}, QUIET);
    var b3 := Client(b, {f}, {}, QUIET);
    FirstTwo(a, b);
    Set0(a0, b0, a1);
    Set0(a1, b0, a2);
    Set0(a2, b0, b1);
    Set0(a2, b1, b2);
    Set0(a2, b2, b3);
    assert {} + {f} == {f};
    Prepend(Two(a2, b2, map[], [], {}), Register(1, f), Two(a2, b3, map[], [], {}), rest);
    evs := [Register(1, f)] + rest;
    Prepend(Two(a2, b1, map[], [], {}), Net(1, Connect), Two(a2, b2, map[], [], {}), evs);
    evs := [Net(1, Connect)] + evs;
    Prepend(Two(a2, b0, map[], [], {}), Net(1, Install), Two(a2, b1, map[], [], {}), evs);
    evs := [Net(1, Install)] + evs;
    Prepend(Two(a1, b0, map[], [], {}), Net(0, Connect), Two(a2, b0, map[], [], {}), evs);
    evs := [Net(0, Connect)] + evs;
    Prepend(Two(a0, b0, map[], [], {}), Net(0, Install), Two(a1, b0, map[], [], {}), evs);
    evs := [Net(0, Install)] + evs;
  }

  // The caller once its message is on the wire.
  function Asking(a: string, corr: string, e: Envelope): Client {
    Client(a, {}, {corr}, Online([], None, [e], [e]))
  }

  lemma {:induction false} PlaceCall(a: string, c1: Client, corr: string, call: Call, e: Envelope, rest: seq<Event>)
    returns (evs: seq<Event>)
    requires call.caller == 0 && call.phase.Registered? && call.slot.None?
    requires e == Envelope(CallMessage(call.function_, call.target, corr, a, call.args, call.kwargs), ByCall)
    requires EnabledAll(Two(Asking(a, corr, e), c1, map[corr := call.(phase := Waiting)], [], {e}), rest)
    ensures EnabledAll(Two(Client(a, {}, {}, QUIET), c1, map[], [], {}), evs)
    ensures AfterAll(Two(Client(a, {}, {}, QUIET), c1, map[], [], {}), evs)
         == AfterAll(Two(Asking(a, corr, e), c1, map[corr := call.(phase := Waiting)], [], {e}), rest)
  {
    var a0 := Client(a, {}, {}, QUIET);
    var a1 := Client(a, {}, {corr}, QUIET);
    var a2 := Client(a, {}, {corr}, Online([], Some(e), [], []));
    var a3 := Client(a, {}, {corr}, Online([e], None, [e], []));
    var a4 := Asking(a, corr, e);
    var (m1, m2, m3) := (map[corr := call], map[corr := call.(phase := Sending)], map[corr := call.(phase := Waiting)]);
    Set0(a0, c1, a1);
    Set0(a1, c1, a2);
    Set0(a2, c1, a3);
    Set0(a3, c1, a4);
    assert {} + {corr} == {corr} && [] + [e] == [e] && [e][1..] == [] && {} + {e} == {e};
    Prepend(Two(a3, c1, m3, [], {}), Drained(0, true, true), Two(a4, c1, m3, [], {e}), rest);
    evs := [Drained(0, true, true)] + rest;
    Prepend(Two(a2, c1, m2, [], {}), Pushed(0), Two(a3, c1, m3, [], {}), evs);
    evs := [Pushed(0)] + evs;
    Prepend(Two(a1, c1, m1, [], {}), Acquire(corr), Two(a2, c1, m2, [], {}), evs);
    evs := [Acquire(corr)] + evs;
    Prepend(Two(a0, c1, map[], [], {}), Begin(corr, call), Two(a1, c1, m1, [], {}), evs);
    evs := [Begin(corr, call)] + evs;
  }

  lemma {:induction false} AnswerCall(c0: Client, b: string, f: string, calls: map<string, Call>, e: Envelope, v: Verdict,
                                      run: Incoming, rest: seq<Event>) returns (evs: seq<Event>)
    requires run.at == 1 && run.corr.Some? && run.replyTo.Some? && run.outcome == Some(v) && !run.answered
    requires var r := Envelope(MakeReply(run.replyTo.value, run.corr.value, v), ByRun(0));
      EnabledAll(Two(c0, Client(b, {f}, {}, Online([], None, [r], [r])), calls, [run.(answered := true)], {e, r}), rest)
    ensures var r := Envelope(MakeReply(run.replyTo.value, run.corr.value, v), ByRun(0));
      && EnabledAll(Two(c0, Client(b, {f}, {}, QUIET), calls, [run], {e}), evs)
      && AfterAll(Two(c0, Client(b, {f}, {}, QUIET), calls, [run], {e}), evs)
         == AfterAll(Two(c0, Client(b, {f}, {}, Online([], None, [r], [r])), calls, [run.(answered := true)], {e, r}), rest)
  {
    var r := Envelope(MakeReply(run.replyTo.value, run.corr.value, v), ByRun(0));
    var b0 := Client(b, {f}, {}, QUIET);
    var b1 := Client(b, {f}, {}, Online([], Some(r), [], []));
    var b2 := Client(b, {f}, {}, Online([r], None, [r], []));
    var b3 := Client(b, {f}, {}, Online([], None, [r], [r]));
    var done := run.(answered := true);
    Set0(c0, b0, b1);
    Set0(c0, b1, b2);
    Set0(c0, b2, b3);
    assert [run][0 := done] == [done] && [] + [r] == [r] && [r][1..] == [] && {e} + {r} == {e, r};
    Prepend(Two(c0, b2, calls, [done], {e}), Drained(1, true, true), Two(c0, b3, calls, [done], {e, r}), rest);
    evs := [Drained(1, true, true)] + rest;
    Prepend(Two(c0, b1, calls, [done], {e}), Pushed(1), Two(c0, b2, calls, [done], {e}), evs);
    evs := [Pushed(1)] + evs;
    Prepend(Two(c0, b0, calls, [run], {e}), Reply(0, true), Two(c0, b1, calls, [done], {e}), evs);
    evs := [Reply(0, true)] + evs;
  }

  lemma {:induction false} HearCall(c0: Client, b: string, f: string, calls: map<string, Call>, e: Envelope, v: Verdict,
                                    run: Incoming, rest: seq<Event>) returns (evs: seq<Event>)
    requires e.msg.topic == b && FunctionOf(e.msg) == Some(f)
    requires run == Incoming(1, f, Transit(e.msg.args), Transit(e.msg.kwargs), e.msg.corr, e.msg.replyTo, true, None, false)
    requires EnabledAll(Two(c0, Client(b, {f}, {}, QUIET), calls, [run.(outcome := Some(v))], {e}), rest)
    ensures EnabledAll(Two(c0, Client(b, {f}, {}, QUIET), calls, [], {e}), evs)
    ensures AfterAll(Two(c0, Client(b, {f}, {}, QUIET), calls, [], {e}), evs)
         == AfterAll(Two(c0, Client(b, {f}, {}, QUIET), calls, [run.(outcome := Some(v))], {e}), rest)
  {
    var b0 := Client(b, {f}, {}, QUIET);
    var done := run.(outcome := Some(v));
    assert [] + [run] == [run] && [run][0 := done] == [done];
    Prepend(Two(c0, b0, calls, [run], {e}), Finish(0, v), Two(c0, b0, calls, [done], {e}), rest);
    evs := [Finish(0, v)] + rest;
    Prepend(Two(c0, b0, calls, [], {e}), Hear(1, e, true), Two(c0, b0, calls, [run], {e}), evs);
    evs := [Hear(1, e, true)] + evs;
  }

  lemma {:induction false} TakeReply(c0: Client, c1: Client, corr: string, call: Call, runs: seq<Incoming>,
                                     wire: set<Envelope>, r: Envelope)
    returns (evs: seq<Event>)
    requires call.phase.Waiting? && c0.out.link.Up? && corr in c0.pending && r in wire && r.msg.topic == c0.channel
    requires r.msg.corr == Some(corr) && FunctionOf(r.msg).None?
    ensures EnabledAll(Two(c0, c1, map[corr := call], runs, wire), evs)
    ensures var t := AfterAll(Two(c0, c1, map[corr := call], runs, wire), evs);
      corr in t.calls && t.calls[corr].phase == Returned(Replied(HeardVerdict(r.msg)))
  {
    var s := Two(c0, c1, map[corr := call], runs, wire);
    var s1 := After(s, Hear(0, r, true));
    Prepend(s1, Take(corr), After(s1, Take(corr)), []);
    Prepend(s, Hear(0, r, true), s1, [Take(corr)] + []);
    evs := [Hear(0, r, true)] + ([Take(corr)] + []);
  }

  /** For every function, arguments and plain verdict there is a run in which the call returns that
      verdict, completed. */
  lemma {:induction false} CallCanSucceed(a: string, b: string, f: string, corr: string, args: Json, kwargs: Json, v: Verdict)
    returns (evs: seq<Event>)
    requires Plain(v)
    ensures EnabledAll(Start([a, b]), evs) && corr in AfterAll(Start([a, b]), evs).calls
    ensures AfterAll(Start([a, b]), evs).calls[corr].phase == Returned(Replied(Completed(corr, v)))
  {
    var call := Call(0, f, b, args, kwargs, Registered, None);
    var e := Envelope(CallMessage(f, b, corr, a, args, kwargs), ByCall);
    var r := Envelope(MakeReply(a, corr, v), ByRun(0));
    var run := Incoming(1, f, Transit(e.msg.args), Transit(e.msg.kwargs), Some(corr), Some(a), true, None, false);
    ReplyRoundTrip(a, corr, v);
    evs := TakeReply(Asking(a, corr, e), Client(b, {f}, {}, Online([], None, [r], [r])), corr, call.(phase := Waiting),
                     [run.(outcome := Some(v), answered := true)], {e, r}, r);
    var waiting := map[corr := call.(phase := Waiting)];
    evs := AnswerCall(Asking(a, corr, e), b, f, waiting, e, v, run.(outcome := Some(v)), evs);
    evs := HearCall(Asking(a, corr, e), b, f, waiting, e, v, run, evs);
    evs := PlaceCall(a, Client(b, {f}, {}, QUIET), corr, call, e, evs);
    evs := GoOnline(a, b, f, evs);
  }
}
