/** src/wamp_client.rs: who waits for whom. Three locks (pending, handlers, publish_tx), the bounded
    queue, the socket loop, and any number of callers, publishers, handler tasks and registrations. */
module Locks {
  import opened Prelude
  import opened Outbound

  datatype Lock = P | H | T        // pending, handlers, publish_tx

  // Where a task is. Task 0 is the socket loop.
  datatype Pc =
    | LoopWants(l: Lock)           // T only to install the sender, P and H inside handle_message
    | LoopHolds(l: Lock)
    | LoopAway                     // backing off or connecting
    | LoopSelect                   // connected, at the select
    | LoopGone
    | CallEnters                   // wants P to insert its entry
    | CallInserts                  // holds P
    | CallWantsSender              // wants T
    | CallSends                    // holds T
    | CallAwaits                   // for the reply or the timer
    | CallLeaves                   // wants P to remove its entry
    | CallRemoves                  // holds P
    | PublishWantsSender
    | PublishSends
    | HandlerRuns
    | HandlerSends                 // got T with try_lock
    | RegisterWants
    | RegisterHolds
    | Done

  function Holds(pc: Pc): Option<Lock> {
    match pc
    case LoopHolds(l) => Some(l)
    case CallInserts => Some(P)
    case CallRemoves => Some(P)
    case CallSends => Some(T)
    case PublishSends => Some(T)
    case HandlerSends => Some(T)
    case RegisterHolds => Some(H)
    case _ => None
  }

  function Wants(pc: Pc): Option<Lock> {
    match pc
    case LoopWants(l) => Some(l)
    case CallEnters => Some(P)
    case CallLeaves => Some(P)
    case CallWantsSender => Some(T)
    case PublishWantsSender => Some(T)
    case RegisterWants => Some(H)
    case _ => None
  }

  predicate Sending(pc: Pc) {
    pc.CallSends? || pc.PublishSends? || pc.HandlerSends?
  }

  datatype State = State(tasks: seq<Pc>, queued: nat, link: Link)

  function FindHolder(tasks: seq<Pc>, l: Lock, from: nat): Option<nat>
    requires from <= |tasks|
    ensures var r := FindHolder(tasks, l, from);
      && (r.Some? ==> from <= r.value < |tasks| && Holds(tasks[r.value]) == Some(l))
      && (r.None? ==> forall t :: from <= t < |tasks| ==> Holds(tasks[t]) != Some(l))
    decreases |tasks| - from
  {
    if from == |tasks| then None
    else if Holds(tasks[from]) == Some(l) then Some(from)
    else FindHolder(tasks, l, from + 1)
  }

  function Owner(s: State, l: Lock): Option<nat> {
    FindHolder(s.tasks, l, 0)
  }

  // Nobody stands between a sender that owns T and its return.
  predicate MaySend(s: State) {
    s.link.Idle? || s.link.Closed? || s.queued < ROOM
  }

  // A task's own next step is possible.
  predicate CanMove(s: State, t: nat)
    requires t < |s.tasks|
  {
    var pc := s.tasks[t];
    || (Wants(pc).Some? && Owner(s, Wants(pc).value).None?)
    || (Holds(pc).Some? && !Sending(pc))
    || (Sending(pc) && MaySend(s))
    || (pc.LoopSelect? && s.queued > 0)
  }

  // Where the step leads: next is the place after taking or giving back a lock.
  function Next(s: State, pc: Pc): Pc {
    match pc
    case LoopWants(l) => LoopHolds(l)
    case LoopHolds(l) => if l.T? then LoopAway else LoopSelect
    case CallEnters => CallInserts
    case CallInserts => CallWantsSender
    case CallWantsSender => CallSends
    case CallSends => if s.link.Idle? || s.link.Closed? then Done else CallAwaits
    case CallLeaves => CallRemoves
    case PublishWantsSender => PublishSends
    case RegisterWants => RegisterHolds
    case LoopSelect => LoopSelect
    case _ => Done
  }

  function Move(s: State, t: nat): State
    requires t < |s.tasks| && CanMove(s, t)
  {
    var pc := s.tasks[t];
    State(s.tasks[t := Next(s, pc)],
          if Sending(pc) && (s.link.Down? || s.link.Up?) then s.queued + 1
          else if pc.LoopSelect? then s.queued - 1
          else s.queued,
          if pc == LoopHolds(T) then Down else s.link)
  }

  datatype Outside =
    | Arrive(pc: Pc)               // a new call, publish or registration
    | Connected
    | Disconnected
    | Shutdown
    | Received(l: Option<Lock>)    // a message for handle_message: P for a reply, H for a call
    | Replied(t: nat, timeout: bool)
    | Finished(t: nat)             // a handler task goes for the lock with try_lock

  predicate Possible(s: State, x: Outside) {
    match x
    case Arrive(pc) => pc.CallEnters? || pc.PublishWantsSender? || pc.RegisterWants? || pc.HandlerRuns?
    case Connected => s.tasks != [] && s.tasks[0].LoopAway?
    case Disconnected => s.tasks != [] && s.tasks[0].LoopSelect?
    case Shutdown => s.tasks != [] && (s.tasks[0].LoopAway? || s.tasks[0].LoopSelect?)
    case Received(l) => s.tasks != [] && s.tasks[0].LoopSelect? && l != Some(T)
    case Replied(t, _) => t < |s.tasks| && s.tasks[t].CallAwaits?
    case Finished(t) => t < |s.tasks| && s.tasks[t].HandlerRuns?
  }

  function Happen(s: State, x: Outside): State
    requires Possible(s, x)
  {
    match x
    case Arrive(pc) => s.(tasks := s.tasks + [pc])
    case Connected => s.(tasks := s.tasks[0 := LoopSelect], link := Up)
    case Disconnected => s.(tasks := s.tasks[0 := LoopAway], link := Down)
    case Shutdown => s.(tasks := s.tasks[0 := LoopGone], link := Closed)
    case Received(l) => if l.Some? then s.(tasks := s.tasks[0 := LoopWants(l.value)]) else s
    case Replied(t, timeout) => s.(tasks := s.tasks[t := if timeout then CallLeaves else Done])
    case Finished(t) =>
      s.(tasks := s.tasks[t := if Owner(s, T).None? && !s.link.Idle? then HandlerSends else Done])
  }

  datatype Event = Own(t: nat) | Env(x: Outside)

  predicate Enabled(s: State, ev: Event) {
    match ev
    case Own(t) => t < |s.tasks| && CanMove(s, t)
    case Env(x) => Possible(s, x)
  }

  function After(s: State, ev: Event): State
    requires Enabled(s, ev)
  {
    match ev
    case Own(t) => Move(s, t)
    case Env(x) => Happen(s, x)
  }

  predicate EnabledAll(s: State, evs: seq<Event>)
    decreases |evs|
  {
    evs == [] || (Enabled(s, evs[0]) && EnabledAll(After(s, evs[0]), evs[1..]))
  }

  function AfterAll(s: State, evs: seq<Event>): State
    requires EnabledAll(s, evs)
    decreases |evs|
  {
    if evs == [] then s else AfterAll(After(s, evs[0]), evs[1..])
  }

  const START: State := State([LoopWants(T)], 0, Idle)

  // ── the invariant ────────────────────────────────────────────────────────

  predicate IsLoop(pc: Pc) {
    pc.LoopWants? || pc.LoopHolds? || pc.LoopAway? || pc.LoopSelect? || pc.LoopGone?
  }

  // The loop wants or holds publish_tx only before the sender is installed.
  predicate LoopFits(pc: Pc, link: Link) {
    match pc
    case LoopWants(l) => if l.T? then link.Idle? else link.Up?
    case LoopHolds(l) => if l.T? then link.Idle? else link.Up?
    case LoopAway => link.Down?
    case LoopSelect => link.Up?
    case LoopGone => link.Closed?
    case _ => false
  }

  ghost predicate Exclusive(tasks: seq<Pc>) {
    forall t, u | 0 <= t < u < |tasks| :: Holds(tasks[t]).Some? ==> Holds(tasks[t]) != Holds(tasks[u])
  }

  ghost predicate Inv(s: State) {
    && s.tasks != [] && LoopFits(s.tasks[0], s.link)
    && (forall t | 0 < t < |s.tasks| :: !IsLoop(s.tasks[t]))
    && Exclusive(s.tasks)
    && s.queued <= ROOM
  }

  lemma {:induction false} ExclusiveUpdate(s: State, t: nat, pc: Pc)
    requires Exclusive(s.tasks) && t < |s.tasks|
    requires Holds(pc).Some? ==> Owner(s, Holds(pc).value).None? || Holds(s.tasks[t]) == Holds(pc)
    ensures Exclusive(s.tasks[t := pc])
  {
  }

  lemma {:induction false} MoveInv(s: State, t: nat)
    requires Inv(s) && t < |s.tasks| && CanMove(s, t)
    ensures Inv(Move(s, t))
  {
    ExclusiveUpdate(s, t, Next(s, s.tasks[t]));
  }

  lemma {:induction false} HappenInv(s: State, x: Outside)
    requires Inv(s) && Possible(s, x)
    ensures Inv(Happen(s, x))
  {
    match x {
      case Connected => ExclusiveUpdate(s, 0, LoopSelect);
      case Disconnected => ExclusiveUpdate(s, 0, LoopAway);
      case Shutdown => ExclusiveUpdate(s, 0, LoopGone);
      case Received(l) => if l.Some? { ExclusiveUpdate(s, 0, LoopWants(l.value)); }
      case Replied(t, timeout) => ExclusiveUpdate(s, t, if timeout then CallLeaves else Done);
      case Finished(t) => ExclusiveUpdate(s, t, if Owner(s, T).None? && !s.link.Idle? then HandlerSends else Done);
      case Arrive(_) =>
    }
  }

  lemma {:induction false} InvFrom(s: State, evs: seq<Event>)
    requires Inv(s) && EnabledAll(s, evs)
    ensures Inv(AfterAll(s, evs))
    decreases |evs|
  {
    if evs != [] {
      match evs[0] {
        case Own(t) => MoveInv(s, t);
        case Env(x) => HappenInv(s, x);
      }
      InvFrom(After(s, evs[0]), evs[1..]);
    }
  }

  // ── waiting ──────────────────────────────────────────────────────────────

  // The task without whose step this one cannot go on.
  function WaitsFor(s: State, t: nat): Option<nat>
    requires s.tasks != [] && t < |s.tasks|
    ensures var u := WaitsFor(s, t); u.Some? ==> u.value < |s.tasks|
  {
    var pc := s.tasks[t];
    if Wants(pc).Some? then Owner(s, Wants(pc).value)
    else if Sending(pc) && !MaySend(s) then Some(0)
    else None
  }

  function Rank(pc: Pc): nat {
    if Wants(pc) == Some(T) then 3
    else if Sending(pc) then 2
    else if Wants(pc).Some? then 1
    else 0
  }

  // Waiting for something outside the process: network, timer, handler body.
  predicate Outdoors(pc: Pc) {
    pc.LoopAway? || pc.LoopSelect? || pc.CallAwaits? || pc.HandlerRuns?
  }

  lemma {:induction false} WaitingDescends(s: State, t: nat)
    requires Inv(s) && t < |s.tasks|
    ensures var u := WaitsFor(s, t); u.Some? ==> Rank(s.tasks[u.value]) < Rank(s.tasks[t])
  {
    var pc := s.tasks[t];
    if Wants(pc) == Some(P) || Wants(pc) == Some(H) {
      assert forall u | 0 <= u < |s.tasks| :: Holds(s.tasks[u]) == Wants(pc) ==> Rank(s.tasks[u]) == 0;
    }
  }

  /** The socket comes up only while it is down, goes down only while it is up, and messages come in only while it is up;
      shutdown closes it from either. */
  lemma {:induction false} LinkChanges(s: State, x: Outside)
    requires Inv(s) && Possible(s, x)
    ensures x.Connected? ==> s.link.Down? && Happen(s, x).link.Up?
    ensures x.Disconnected? ==> s.link.Up? && Happen(s, x).link.Down?
    ensures x.Shutdown? ==> (s.link.Up? || s.link.Down?) && Happen(s, x).link.Closed?
    ensures x.Received? ==> s.link.Up? && Happen(s, x).link.Up?
  {
  }

  /** A waiting call that is answered is done, and one that times out goes back for its entry; a handler that concludes
      replies only if publish_tx is free at that moment and was ever installed. */
  lemma {:induction false} Wakes(s: State, t: nat, timeout: bool)
    requires Inv(s)
    ensures Possible(s, Replied(t, timeout)) ==>
      s.tasks[t].CallAwaits? && Wants(Happen(s, Replied(t, timeout)).tasks[t]) == if timeout then Some(P) else None
    ensures Possible(s, Finished(t)) ==>
      s.tasks[t].HandlerRuns? &&
      (Holds(Happen(s, Finished(t)).tasks[t]) == Some(T) <==>
        !s.link.Idle? && forall u :: 0 <= u < |s.tasks| ==> Holds(s.tasks[u]) != Some(T))
  {
  }

  // The own steps of a task until it is done, or at the reply it waits for.
  function StepsLeft(pc: Pc): nat {
    match pc
    case CallEnters => 4
    case CallInserts => 3
    case CallWantsSender => 2
    case CallSends => 1
    case CallLeaves => 2
    case CallRemoves => 1
    case PublishWantsSender => 2
    case PublishSends => 1
    case HandlerSends => 1
    case RegisterWants => 2
    case RegisterHolds => 1
    case _ => 0
  }

  /** Every own step brings a task but the loop nearer to its end, so none takes more than four; and a call waits for a
      reply exactly if its message has entered the queue. */
  lemma {:induction false} StepsRunOut(s: State, t: nat)
    requires Inv(s) && 0 < t < |s.tasks| && CanMove(s, t)
    ensures StepsLeft(Move(s, t).tasks[t]) + 1 == StepsLeft(s.tasks[t]) <= 4
    ensures s.tasks[t].CallSends? ==> (Move(s, t).tasks[t].CallAwaits? <==> Move(s, t).queued == s.queued + 1)
  {
  }

  // r is reached from t by following n times what is waited for.
  predicate Leads(s: State, t: nat, r: nat, n: nat)
    requires s.tasks != [] && t < |s.tasks|
    decreases n
  {
    if n == 0 then t == r else WaitsFor(s, t).Some? && Leads(s, WaitsFor(s, t).value, r, n - 1)
  }

  lemma {:induction false} Awaited(s: State, t: nat)
    requires Inv(s) && t < |s.tasks| && WaitsFor(s, t).Some?
    ensures var pc := s.tasks[WaitsFor(s, t).value]; !pc.Done? && !pc.LoopGone? && (s.link.Up? ==> !pc.LoopAway?)
  {
  }

  lemma {:induction false} RootActs(s: State, t: nat) returns (r: nat, n: nat)
    requires Inv(s) && t < |s.tasks| && !s.tasks[t].Done? && !s.tasks[t].LoopGone?
    ensures r < |s.tasks| && n <= Rank(s.tasks[t]) && Leads(s, t, r, n)
    ensures CanMove(s, r) || Outdoors(s.tasks[r])
    ensures s.link.Up? && WaitsFor(s, t).Some? ==> CanMove(s, r)
    decreases Rank(s.tasks[t])
  {
    var u := WaitsFor(s, t);
    if u.None? {
      r, n := t, 0;
    } else {
      Awaited(s, t);
      WaitingDescends(s, t);
      r, n := RootActs(s, u.value);
      n := n + 1;
    }
  }

  /** No reachable deadlock: from any unfinished task, following at most three times what is waited
      for leads to a task that can take its next step, or that waits for something outside the
      process; while connected, a task held up by another always leads to one that can move. */
  lemma {:induction false} NoDeadlock(evs: seq<Event>, t: nat)
    requires EnabledAll(START, evs) && t < |AfterAll(START, evs).tasks|
    requires var pc := AfterAll(START, evs).tasks[t]; !pc.Done? && !pc.LoopGone?
    ensures var s := AfterAll(START, evs);
      exists r: nat, n: nat | r < |s.tasks| && n <= 3 ::
        && Leads(s, t, r, n)
        && (CanMove(s, r) || Outdoors(s.tasks[r]))
        && (s.link.Up? && WaitsFor(s, t).Some? ==> CanMove(s, r))
  {
    InvFrom(START, evs);
    var r, n := RootActs(AfterAll(START, evs), t);
  }

  /** After start-up the loop never waits for publish_tx, nor owns it. */
  lemma {:induction false} LoopNeverWantsSender(evs: seq<Event>)
    requires EnabledAll(START, evs) && !AfterAll(START, evs).link.Idle?
    ensures var tasks := AfterAll(START, evs).tasks;
      tasks != [] && Wants(tasks[0]) != Some(T) && Holds(tasks[0]) != Some(T)
  {
    InvFrom(START, evs);
  }
}
