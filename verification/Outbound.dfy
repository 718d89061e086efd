/** src/wamp_client.rs: the bounded outbound queue between publishers and the socket loop. */
module Outbound {
  import opened Prelude

  const ROOM: nat := 32

  // Idle before listen, Down between connections, Up while connected, Closed after listen returned.
  datatype Link = Idle | Down | Up | Closed

  // holder is the message of the task that owns the publish_tx lock while it waits for room.
  // enqueued, sent, lost and ended record the run: what entered the queue, what the socket took,
  // what was taken from the queue by a send that failed, and how many connections ended.
  datatype Outbound<M> = Outbound(
    link: Link, queue: seq<M>, holder: Option<M>,
    enqueued: seq<M>, sent: seq<M>, lost: seq<M>, ended: nat)

  function Fresh<M>(): Outbound<M> {
    Outbound(Idle, [], None, [], [], [], 0)
  }

  datatype Op<M> =
    | Install                    // listen stores the sender half
    | Connect                    // the socket opened
    | Drop                       // close frame, read error, missing pong
    | Stop                       // shutdown, while connected or backing off
    | Lock(m: M)                 // a publisher takes the lock, the sender being installed
    | Push                       // room is there: the lock is released
    | Refused                    // the receiver is gone: send fails and the lock is released
    | Drain(ok: bool)            // one turn of the loop's pub_rx.recv() branch

  predicate Can<M(==)>(o: Outbound<M>, op: Op<M>) {
    match op
    case Install => o.link.Idle?
    case Connect => o.link.Down?
    case Drop => o.link.Up?
    case Stop => o.link.Down? || o.link.Up?
    case Lock(_) => !o.link.Idle? && o.holder.None?
    case Push => (o.link.Down? || o.link.Up?) && o.holder.Some? && |o.queue| < ROOM
    case Refused => o.link.Closed? && o.holder.Some?
    case Drain(_) => o.link.Up? && o.queue != []
  }

  function Do<M>(o: Outbound<M>, op: Op<M>): Outbound<M>
    requires Can(o, op)
  {
    match op
    case Install => o.(link := Down)
    case Connect => o.(link := Up)
    case Drop => o.(link := Down, ended := o.ended + 1)
    case Stop => o.(link := Closed, ended := o.ended + if o.link.Up? then 1 else 0)
    case Lock(m) => o.(holder := Some(m))
    case Push => o.(queue := o.queue + [o.holder.value], holder := None, enqueued := o.enqueued + [o.holder.value])
    case Refused => o.(holder := None)
    case Drain(ok) =>
      if ok then o.(queue := o.queue[1..], sent := o.sent + [o.queue[0]])
      else o.(link := Down, queue := o.queue[1..], lost := o.lost + [o.queue[0]], ended := o.ended + 1)
  }

  predicate CanAll<M(==)>(o: Outbound<M>, ops: seq<Op<M>>)
    decreases |ops|
  {
    ops == [] || (Can(o, ops[0]) && CanAll(Do(o, ops[0]), ops[1..]))
  }

  function DoAll<M>(o: Outbound<M>, ops: seq<Op<M>>): Outbound<M>
    requires CanAll(o, ops)
    decreases |ops|
  {
    if ops == [] then o else DoAll(Do(o, ops[0]), ops[1..])
  }

  // ── conservation ─────────────────────────────────────────────────────────

  // all is an interleaving of a and b, each in its own order.
  predicate Merges<M(==)>(all: seq<M>, a: seq<M>, b: seq<M>)
    decreases |all|
  {
    if all == [] then a == [] && b == []
    else
      var (rest, m) := (all[..|all| - 1], all[|all| - 1]);
      || (a != [] && a[|a| - 1] == m && Merges(rest, a[..|a| - 1], b))
      || (b != [] && b[|b| - 1] == m && Merges(rest, a, b[..|b| - 1]))
  }

  // What has left the queue so far.
  function Taken<M>(o: Outbound<M>): seq<M>
    requires |o.queue| <= |o.enqueued|
  {
    o.enqueued[..|o.enqueued| - |o.queue|]
  }

  predicate Conserves<M(==)>(o: Outbound<M>) {
    && |o.queue| <= ROOM
    && |o.queue| <= |o.enqueued|
    && o.enqueued == Taken(o) + o.queue
    && Merges(Taken(o), o.sent, o.lost)
    && |o.lost| <= o.ended
  }

  lemma {:induction false} MergesGrow<M>(all: seq<M>, a: seq<M>, b: seq<M>, m: M)
    requires Merges(all, a, b)
    ensures Merges(all + [m], a + [m], b) && Merges(all + [m], a, b + [m])
  {
    assert (all + [m])[..|all|] == all && (a + [m])[..|a|] == a && (b + [m])[..|b|] == b;
  }

  lemma {:induction false} DrainConserves<M>(o: Outbound<M>, ok: bool)
    requires Conserves(o) && Can(o, Drain(ok))
    ensures Conserves(Do(o, Drain(ok)))
  {
    var o' := Do(o, Drain(ok));
    var m := o.queue[0];
    MergesGrow(Taken(o), o.sent, o.lost, m);
    assert o.enqueued[|Taken(o)|] == m;
    assert Taken(o') == Taken(o) + [m];
    assert o.enqueued == Taken(o') + o'.queue;
  }

  lemma {:induction false} StepConserves<M>(o: Outbound<M>, op: Op<M>)
    requires Conserves(o) && Can(o, op)
    ensures Conserves(Do(o, op))
  {
    match op {
      case Drain(ok) => DrainConserves(o, ok);
      case Push =>
        var o' := Do(o, op);
        assert Taken(o') == Taken(o);
        assert o'.enqueued == Taken(o') + o'.queue;
      case _ =>
    }
  }

  lemma {:induction false} FreshConserves<M>()
    ensures Conserves(Fresh<M>())
  {
    assert Taken(Fresh<M>()) == [];
  }

  /** Over any run, across any number of reconnects, the queue holds at most 32 messages and
      everything ever enqueued was sent or lost, in order, or is still queued; a message is lost
      only with a connection. A waiting message is let in exactly while there are fewer than 32. */
  lemma {:induction false} Conservation<M>(ops: seq<Op<M>>)
    requires CanAll(Fresh(), ops)
    ensures var o := DoAll(Fresh(), ops);
      && Conserves(o) && |o.queue| <= 32
      && (Can(o, Push) <==> (o.link.Down? || o.link.Up?) && o.holder.Some? && |o.queue| < 32)
  {
    FreshConserves<M>();
    ConservationFrom(Fresh(), ops);
  }

  function Connects<M>(ops: seq<Op<M>>): nat {
    if ops == [] then 0 else (if ops[0].Connect? then 1 else 0) + Connects(ops[1..])
  }

  function Standing(link: Link): nat {
    if link.Up? then 1 else 0
  }

  /** Every connection that was made ends once, or still stands. */
  lemma {:induction false} ConnectionsEnd<M>(o: Outbound<M>, ops: seq<Op<M>>)
    requires CanAll(o, ops)
    ensures DoAll(o, ops).ended + Standing(DoAll(o, ops).link) == o.ended + Standing(o.link) + Connects(ops)
    decreases |ops|
  {
    if ops != [] {
      ConnectionsEnd(Do(o, ops[0]), ops[1..]);
    }
  }

  lemma {:induction false} ConservationFrom<M>(o: Outbound<M>, ops: seq<Op<M>>)
    requires Conserves(o) && CanAll(o, ops)
    ensures Conserves(DoAll(o, ops))
    decreases |ops|
  {
    if ops != [] {
      StepConserves(o, ops[0]);
      ConservationFrom(Do(o, ops[0]), ops[1..]);
    }
  }

  // part is what remains of all after deleting some elements.
  predicate Within<M(==)>(part: seq<M>, all: seq<M>)
    decreases |all|
  {
    part == [] ||
    (all != [] &&
       var (rest, m) := (all[..|all| - 1], all[|all| - 1]);
       (part[|part| - 1] == m && Within(part[..|part| - 1], rest)) || Within(part, rest))
  }

  lemma {:induction false} WithinLonger<M>(part: seq<M>, all: seq<M>, more: seq<M>)
    requires Within(part, all)
    ensures Within(part, all + more)
    decreases |more|
  {
    if more == [] {
      assert all + more == all;
    } else {
      WithinLonger(part, all, more[..|more| - 1]);
      assert (all + more)[..|all + more| - 1] == all + more[..|more| - 1];
    }
  }

  lemma {:induction false} MergedIsWithin<M>(all: seq<M>, a: seq<M>, b: seq<M>)
    requires Merges(all, a, b)
    ensures Within(a, all)
    decreases |all|
  {
    if all != [] {
      var (rest, m) := (all[..|all| - 1], all[|all| - 1]);
      if b != [] && b[|b| - 1] == m && Merges(rest, a, b[..|b| - 1]) {
        MergedIsWithin(rest, a, b[..|b| - 1]);
      } else {
        MergedIsWithin(rest, a[..|a| - 1], b);
      }
    }
  }

  /** What reaches the socket is an in-order subsequence of what was enqueued. */
  lemma {:induction false} SentInOrder<M>(o: Outbound<M>)
    requires Conserves(o)
    ensures Within(o.sent, o.enqueued)
  {
    MergedIsWithin(Taken(o), o.sent, o.lost);
    WithinLonger(o.sent, Taken(o), o.queue);
  }
}
