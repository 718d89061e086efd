/** The pending table of module Wamp: which entries it holds while a client listens, and how each one leaves it. */
module WampTable {
  import opened Prelude
  import opened Json
  import opened Outbound
  import opened Wamp
  import opened WampSafety

  // ── the pending table while listening ────────────────────────────────────

  predicate InFlight(call: Call) {
    !call.phase.Returned? && call.slot.None?
  }

  // An entry left behind by a call whose message was never queued.
  predicate Leaked(s: State, n: nat, corr: string) {
    n < |s.clients| && corr in s.clients[n].pending && corr in s.calls && s.calls[corr].phase.Returned?
  }

  // The call gets to publish_tx before listen has put a sender there.
  predicate FailsEarly(s: State, ev: Event, n: nat, corr: string) {
    && ev == Acquire(corr) && corr in s.calls && s.calls[corr].caller == n
    && n < |s.clients| && s.clients[n].out.link.Idle?
  }

  // Client n hears nothing about the call.
  predicate Quiet(evs: seq<Event>, n: nat, corr: string)
    decreases |evs|
  {
    evs == [] || (!Settles(evs[0], n, corr) && Quiet(evs[1..], n, corr))
  }

  // In evs the call fails early, and client n hears nothing about it afterwards.
  predicate FailedEarly(s: State, evs: seq<Event>, n: nat, corr: string)
    requires EnabledAll(s, evs)
    decreases |evs|
  {
    evs != [] &&
    ((FailsEarly(s, evs[0], n, corr) && Quiet(evs[1..], n, corr)) || FailedEarly(After(s, evs[0]), evs[1..], n, corr))
  }

  // What remains of an entry left behind.
  predicate Stranded(call: Call) {
    call.phase.Returned? && Live(call)
  }

  lemma {:induction false} LeakByLoop(s: State, ev: Event, n: nat, corr: string)
    requires Table(s) && Enabled(s, ev) && ByLoop(ev) && n < |s.clients| == |After(s, ev).clients|
    requires corr in s.calls && s.calls[corr].caller == n && corr in After(s, ev).calls
    requires !After(s, ev).clients[n].out.link.Closed?
    ensures Stranded(After(s, ev).calls[corr]) <==> Stranded(s.calls[corr])
  {
    if ev.Pushed? || ev.Failed? { assert HolderAt(s, ev.n); }
  }

  lemma {:induction false} LeakByCaller(s: State, ev: Event, n: nat, corr: string)
    requires Table(s) && Enabled(s, ev) && ByCaller(ev) && n < |s.clients|
    requires corr in s.calls && s.calls[corr].caller == n && corr in After(s, ev).calls
    ensures Stranded(After(s, ev).calls[corr]) <==> FailsEarly(s, ev, n, corr) || Stranded(s.calls[corr])
  {
    assert LateAt(s, corr);
  }

  lemma {:induction false} LeakByMessage(s: State, ev: Event, n: nat, corr: string)
    requires Table(s) && Enabled(s, ev) && ByMessage(ev) && n < |s.clients|
    requires corr in s.calls && s.calls[corr].caller == n && corr in After(s, ev).calls
    ensures Stranded(After(s, ev).calls[corr]) <==> Stranded(s.calls[corr]) && !Settles(ev, n, corr)
  {
    assert TableAt(s, n, corr);
    if ev.Hear? || ev.BrokerError? { assert TableAt(s, ev.n, corr); }
  }

  lemma {:induction false} LeakStep(s: State, ev: Event, n: nat, corr: string)
    requires Enabled(s, ev) && Table(s) && Table(After(s, ev)) && n < |s.clients| == |After(s, ev).clients|
    requires !After(s, ev).clients[n].out.link.Closed?
    ensures Leaked(After(s, ev), n, corr) <==> FailsEarly(s, ev, n, corr) || (Leaked(s, n, corr) && !Settles(ev, n, corr))
  {
    var t := After(s, ev);
    assert TableAt(s, n, corr) && TableAt(t, n, corr);
    if corr in s.calls {
      CallStays(s, ev, corr);
      if s.calls[corr].caller == n {
        if ByLoop(ev) {
          LeakByLoop(s, ev, n, corr);
        } else if ByCaller(ev) {
          LeakByCaller(s, ev, n, corr);
        } else {
          LeakByMessage(s, ev, n, corr);
        }
      }
    } else if corr in t.calls {
      BeginsOnly(s, ev, corr);
    }
  }

  lemma {:induction false} ClosedForever(s: State, evs: seq<Event>, n: nat)
    requires EnabledAll(s, evs) && n < |s.clients| && s.clients[n].out.link.Closed?
    ensures n < |AfterAll(s, evs).clients| && AfterAll(s, evs).clients[n].out.link.Closed?
    decreases |evs|
  {
    if evs != [] {
      CountsGrow(s, evs[0]);
      LinkStep(s, evs[0], n);
      ClosedForever(After(s, evs[0]), evs[1..], n);
    }
  }

  lemma {:induction false} NotYetClosed(s: State, ev: Event, evs: seq<Event>, n: nat)
    requires Enabled(s, ev) && EnabledAll(After(s, ev), evs) && n < |s.clients| == |After(s, ev).clients|
    requires n < |AfterAll(After(s, ev), evs).clients| && !AfterAll(After(s, ev), evs).clients[n].out.link.Closed?
    ensures !After(s, ev).clients[n].out.link.Closed?
  {
    if After(s, ev).clients[n].out.link.Closed? {
      ClosedForever(After(s, ev), evs, n);
    }
  }

  lemma {:induction false} LeakedIff(s: State, evs: seq<Event>, n: nat, corr: string)
    requires Good(s) && EnabledAll(s, evs) && n < |s.clients| && n < |AfterAll(s, evs).clients|
    requires !AfterAll(s, evs).clients[n].out.link.Closed?
    ensures Leaked(AfterAll(s, evs), n, corr) <==>
      FailedEarly(s, evs, n, corr) || (Leaked(s, n, corr) && Quiet(evs, n, corr))
    decreases |evs|
  {
    if evs != [] {
      var ev, rest := evs[0], evs[1..];
      CountsGrow(s, ev);
      StepGood(s, ev);
      NotYetClosed(s, ev, rest, n);
      LeakedIff(After(s, ev), rest, n, corr);
      LeakStep(s, ev, n, corr);
    }
  }

  // The ids of the calls of client n that wait to be sent, answered or given up.
  predicate Flying(s: State, n: nat, corr: string) {
    corr in s.calls && s.calls[corr].caller == n && InFlight(s.calls[corr])
  }

  /** Until listen returns, the table of a client holds the calls in flight and the calls that failed before a
      sender was installed and of which nothing was heard since. */
  lemma {:induction false} TableHolds(channels: seq<string>, evs: seq<Event>, n: nat, corr: string)
    requires EnabledAll(Start(channels), evs) && n < |AfterAll(Start(channels), evs).clients|
    requires !AfterAll(Start(channels), evs).clients[n].out.link.Closed?
    ensures var t := AfterAll(Start(channels), evs);
      corr in t.clients[n].pending <==> Flying(t, n, corr) || FailedEarly(Start(channels), evs, n, corr)
  {
    var s, t := Start(channels), AfterAll(Start(channels), evs);
    StartGood(channels);
    AlwaysGood(channels, evs);
    ClientsStay(s, evs);
    LeakedIff(s, evs, n, corr);
    assert TableAt(t, n, corr);
  }

  lemma {:induction false} ClientsStay(s: State, evs: seq<Event>)
    requires EnabledAll(s, evs)
    ensures |AfterAll(s, evs).clients| == |s.clients|
    decreases |evs|
  {
    if evs != [] {
      CountsGrow(s, evs[0]);
      ClientsStay(After(s, evs[0]), evs[1..]);
    }
  }

  // The keys of the table are the ids of the calls in flight.
  ghost predicate TableIsExact(s: State, n: nat)
    requires n < |s.clients|
  {
    forall corr :: corr in s.clients[n].pending <==> Flying(s, n, corr)
  }

  /** So its keys are exactly the ids of the calls in flight if and only if no call of that client failed that early. */
  lemma {:induction false} TableIsInFlight(channels: seq<string>, evs: seq<Event>, n: nat)
    requires EnabledAll(Start(channels), evs) && n < |AfterAll(Start(channels), evs).clients|
    requires !AfterAll(Start(channels), evs).clients[n].out.link.Closed?
    ensures TableIsExact(AfterAll(Start(channels), evs), n) <==> forall corr :: !FailedEarly(Start(channels), evs, n, corr)
  {
    var t := AfterAll(Start(channels), evs);
    if corr :| FailedEarly(Start(channels), evs, n, corr) {
      TableHolds(channels, evs, n, corr);
      EarlyHasReturned(channels, evs, n, corr);
      assert !(corr in t.clients[n].pending <==> Flying(t, n, corr));
      assert !TableIsExact(t, n);
    } else {
      forall corr ensures corr in t.clients[n].pending <==> Flying(t, n, corr) {
        TableHolds(channels, evs, n, corr);
      }
    }
  }

  lemma {:induction false} EarlyHasReturned(channels: seq<string>, evs: seq<Event>, n: nat, corr: string)
    requires EnabledAll(Start(channels), evs) && n < |AfterAll(Start(channels), evs).clients|
    requires !AfterAll(Start(channels), evs).clients[n].out.link.Closed?
    requires FailedEarly(Start(channels), evs, n, corr)
    ensures !Flying(AfterAll(Start(channels), evs), n, corr)
  {
    StartGood(channels);
    ClientsStay(Start(channels), evs);
    LeakedIff(Start(channels), evs, n, corr);
  }

  lemma {:induction false} AcquireReturns(s: State, evs: seq<Event>, n: nat, corr: string)
    requires Good(s) && EnabledAll(s, evs) && n < |s.clients| && n < |AfterAll(s, evs).clients|
    requires AfterAll(s, evs).clients[n].out.link.Idle?
    ensures FailedEarly(s, evs, n, corr) <==>
      corr in AfterAll(s, evs).calls && AfterAll(s, evs).calls[corr].caller == n && Acquire(corr) in evs
    decreases |evs|
  {
    if evs != [] {
      var ev, rest := evs[0], evs[1..];
      CountsGrow(s, ev);
      StepGood(s, ev);
      AcquireReturns(After(s, ev), rest, n, corr);
      QuietWhileIdle(s, evs, n, corr);
      assert evs == [ev] + rest;
      if ev == Acquire(corr) {
        CallerStays(s, evs, corr);
      }
    }
  }

  // Nothing is heard before listen, and a link that was installed is never Idle again.
  lemma {:induction false} QuietWhileIdle(s: State, evs: seq<Event>, n: nat, corr: string)
    requires EnabledAll(s, evs) && n < |s.clients| && n < |AfterAll(s, evs).clients|
    requires AfterAll(s, evs).clients[n].out.link.Idle?
    ensures s.clients[n].out.link.Idle? && Quiet(evs, n, corr)
    decreases |evs|
  {
    if evs != [] {
      CountsGrow(s, evs[0]);
      LinkStep(s, evs[0], n);
      QuietWhileIdle(After(s, evs[0]), evs[1..], n, corr);
    }
  }

  /** When listen installs the sender, an entry is left behind exactly by the calls that had got to publish_tx. */
  lemma {:induction false} LeakedAtInstall(channels: seq<string>, evs: seq<Event>, n: nat, corr: string)
    requires EnabledAll(Start(channels), evs) && n < |AfterAll(Start(channels), evs).clients|
    requires Enabled(AfterAll(Start(channels), evs), Net(n, Install))
    ensures var t := AfterAll(Start(channels), evs);
      Leaked(t, n, corr) <==> corr in t.calls && t.calls[corr].caller == n && Acquire(corr) in evs
  {
    StartGood(channels);
    ClientsStay(Start(channels), evs);
    LeakedIff(Start(channels), evs, n, corr);
    AcquireReturns(Start(channels), evs, n, corr);
  }

  lemma {:induction false} FirstClient(channel: string)
    ensures Start([channel]) == State([Client(channel, {}, {}, Fresh())], map[], [], {})
  {
    assert Start([channel]).clients[0] == Client(channel, {}, {}, Fresh());
  }

  /** The condition can fail: a call made before listen is in the table while listening, and not in flight. */
  lemma {:induction false} LeakIsReachable(channel: string, corr: string, call: Call) returns (evs: seq<Event>)
    requires call.caller == 0
    ensures EnabledAll(Start([channel]), evs)
    ensures var t := AfterAll(Start([channel]), evs);
      |t.clients| == 1 && t.clients[0].out.link.Down? && corr in t.clients[0].pending && !Flying(t, 0, corr)
  {
    FirstClient(channel);
    var s0 := State([Client(channel, {}, {}, Fresh())], map[], [], {});
    var s1 := After(s0, Begin(corr, call));
    var s2 := After(s1, Acquire(corr));
    var s3 := After(s2, Net(0, Install));
    evs := [Begin(corr, call), Acquire(corr), Net(0, Install)];
    assert evs[1..] == [Acquire(corr), Net(0, Install)] && evs[1..][1..] == [Net(0, Install)] && evs[1..][1..][1..] == [];
    assert AfterAll(s2, [Net(0, Install)]) == s3;
  }

  /** The receiver of a call is never dropped without an answer: a waiting call was told its
      verdict or its entry is still in the table. */
  lemma {:induction false} NeverDropped(s: State, corr: string)
    requires Good(s) && corr in s.calls && s.calls[corr].phase.Waiting?
    ensures s.calls[corr].slot.Some? || corr in s.clients[s.calls[corr].caller].pending
  {
    assert LateAt(s, corr);
    assert TableAt(s, s.calls[corr].caller, corr);
  }

  // Nothing but the table of client n and the call itself differs.
  ghost predicate OnlySettles(s: State, t: State, n: nat, corr: string) {
    && n < |s.clients| == |t.clients| && corr in s.calls && t.calls.Keys == s.calls.Keys
    && t.clients[n] == s.clients[n].(pending := s.clients[n].pending - {corr})
    && (forall m | 0 <= m < |s.clients| && m != n :: t.clients[m] == s.clients[m])
    && (forall c | c in s.calls && c != corr :: t.calls[c] == s.calls[c])
    && t.runs == s.runs && t.wire == s.wire
  }

  lemma {:induction false} SettleOnly(s: State, n: nat, corr: string, slot: Slot)
    requires Table(s) && n < |s.clients| && corr in s.clients[n].pending
    ensures OnlySettles(s, Settle(s, n, corr, slot), n, corr)
    ensures var call := Settle(s, n, corr, slot).calls[corr]; call.phase == s.calls[corr].phase && call.slot == Some(slot)
  {
    assert TableAt(s, n, corr);
  }

  /** The first reply takes out its own entry and nothing else, and a call still waiting for it
      can only return what it said. */
  lemma {:induction false} ReplySettles(s: State, n: nat, e: Envelope, ok: bool)
    requires Good(s) && n < |s.clients| && FunctionOf(e.msg).None? && e.msg.corr.Some?
    requires e.msg.corr.value in s.clients[n].pending
    ensures OnlySettles(s, OnHear(s, n, e, ok), n, e.msg.corr.value)
    ensures var call := OnHear(s, n, e, ok).calls[e.msg.corr.value];
      call.phase == s.calls[e.msg.corr.value].phase && call.slot == Some(Slot(HeardVerdict(e.msg), Cause.Event(e)))
  {
    SettleOnly(s, n, e.msg.corr.value, Slot(HeardVerdict(e.msg), Cause.Event(e)));
  }

  /** A broker error takes out its own entry and nothing else, and tells its own call. */
  lemma {:induction false} ErrorSettles(s: State, n: nat, corr: string, text: string)
    requires Good(s) && n < |s.clients| && corr in s.clients[n].pending
    ensures OnlySettles(s, OnBrokerError(s, n, Some(corr), text), n, corr)
    ensures var call := OnBrokerError(s, n, Some(corr), text).calls[corr];
      call.phase == s.calls[corr].phase && call.slot == Some(Slot(BrokerVerdict(text), Broker(text)))
  {
    SettleOnly(s, n, corr, Slot(BrokerVerdict(text), Broker(text)));
  }

  /** A timeout takes out its own entry and nothing else, and its own call returns. */
  lemma {:induction false} TimeoutSettles(s: State, corr: string)
    requires Enabled(s, GiveUp(corr))
    ensures OnlySettles(s, OnGiveUp(s, corr), s.calls[corr].caller, corr)
    ensures OnGiveUp(s, corr).calls[corr] == s.calls[corr].(phase := Returned(TimedOut))
  {
  }

  /** A late or repeated reply, and a late broker error, changes nothing at all. */
  lemma {:induction false} RepeatIsIdle(s: State, n: nat, e: Envelope, ok: bool, again: Envelope, ok': bool, text: string)
    requires n < |s.clients| && FunctionOf(e.msg).None? && e.msg.corr.Some?
    requires FunctionOf(again.msg).None? && again.msg.corr == e.msg.corr
    ensures e.msg.corr.value !in s.clients[n].pending ==> OnHear(s, n, e, ok) == s
    ensures var t := OnHear(s, n, e, ok);
      e.msg.corr.value in s.calls ==> OnHear(t, n, again, ok') == t && OnBrokerError(t, n, e.msg.corr, text) == t
  {
    var corr := e.msg.corr.value;
    var t := OnHear(s, n, e, ok);
    if corr in s.calls {
      assert corr !in t.clients[n].pending;
    }
  }
}
