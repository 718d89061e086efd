/** src/start.rs, the execute handler: any number of jobs streaming their output, their terminal
    event and their reply through the one outbound queue of the device's client. */
module Execute {
  import opened Prelude
  import opened Json
  import opened Outbound
  import Wamp
  import Sse

  // ── what a job publishes ─────────────────────────────────────────────────

  // The exit status; a killed script has no code.
  type Status = Option<int>

  datatype Part =
    | Log(err: bool, line: string)
    | Terminal(status: Status)
    | Reply(verdict: Wamp.Verdict)

  function CodeOf(status: Status): int {
    OrElse(status, -1)
  }

  predicate Success(status: Status) {
    status == Some(0)
  }

  function Complaint(show: int -> string, status: Status): string {
    "script exited with code " + show(CodeOf(status))
  }

  // What the handler returns after the terminal event.
  function VerdictOf(show: int -> string, status: Status): Wamp.Verdict {
    if Success(status) then Ok(Obj(map["exit_code" := Int(CodeOf(status))]))
    else Err(Obj(map["exit_code" := Int(CodeOf(status)), "error" := Str(Complaint(show, status))]))
  }

  function LogEvent(id: string, err: bool, line: string): Json {
    Obj(map["type" := Str("log"), "stream" := Str(if err then "stderr" else "stdout"), "line" := Str(line),
            "correlation_id" := Str(id)])
  }

  function TerminalEvent(show: int -> string, id: string, status: Status): Json {
    if Success(status)
    then Obj(map["type" := Str("done"), "exit_code" := Int(CodeOf(status)), "correlation_id" := Str(id)])
    else Obj(map["type" := Str("error"), "message" := Str(Complaint(show, status)),
                 "exit_code" := Int(CodeOf(status)), "correlation_id" := Str(id)])
  }

  /** The reader of the event stream prints every line on its own side and stops at the terminal
      event with the outcome of the script, which is also the one the caller is told. */
  lemma {:induction false} EndsAgree(show: int -> string, id: string, data: string, err: bool, line: string, status: Status)
    ensures Sse.StepOfEvent(LogEvent(id, err, line), data) == Sse.Say(if err then Sse.ErrOut(line) else Sse.Out(line))
    ensures Sse.StepOfEvent(TerminalEvent(show, id, status), data)
         == Sse.Stop(if Success(status) then Ok(()) else Err(Sse.JobError(Complaint(show, status))))
    ensures VerdictOf(show, status).Ok? <==> Success(status)
    ensures Wamp.Plain(VerdictOf(show, status))
    ensures Get(Wamp.Payload(VerdictOf(show, status)), "exit_code") == Get(TerminalEvent(show, id, status), "exit_code")
  {
    assert "log" != "done" && "done" != "error" && "stdout" != "stderr";
  }

  predicate Says(v: Json, key: string, what: Json) {
    v.Obj? && key in v.fields && v.fields[key] == what
  }

  // A finished script as its event and its reply report it: done with code 0, or an error with its code, -1 if killed.
  predicate Reports(show: int -> string, id: string, status: Status, event: Json, verdict: Wamp.Verdict) {
    && Says(event, "correlation_id", Str(id))
    && match status
       case Some(0) =>
         && Says(event, "type", Str("done")) && Says(event, "exit_code", Int(0))
         && verdict.Ok? && Says(verdict.value, "exit_code", Int(0))
       case Some(code) =>
         && Says(event, "type", Str("error")) && Says(event, "exit_code", Int(code))
         && Says(event, "message", Str("script exited with code " + show(code)))
         && verdict.Err? && Says(verdict.error, "exit_code", Int(code))
         && Says(verdict.error, "error", Str("script exited with code " + show(code)))
       case None =>
         && Says(event, "type", Str("error")) && Says(event, "exit_code", Int(-1))
         && Says(event, "message", Str("script exited with code " + show(-1)))
         && verdict.Err? && Says(verdict.error, "exit_code", Int(-1))
         && Says(verdict.error, "error", Str("script exited with code " + show(-1)))
  }

  /** Event and reply give the script's own exit code, and every line its stream, under the job's id. */
  lemma {:induction false} EndsReport(show: int -> string, id: string, status: Status, err: bool, line: string)
    ensures Reports(show, id, status, TerminalEvent(show, id, status), VerdictOf(show, status))
    ensures var event := LogEvent(id, err, line);
      && Says(event, "type", Str("log")) && Says(event, "correlation_id", Str(id)) && Says(event, "line", Str(line))
      && Says(event, "stream", Str(if err then "stderr" else "stdout"))
  {
  }

  // ── one job ──────────────────────────────────────────────────────────────

  // A line-reading task: at the pipe, publishing a line, or done (end of file or read error).
  datatype Reader = Reading | Offering(line: string) | Ended

  // read and sent record the lines taken from the pipe and those that entered the queue.
  datatype Stream = Stream(reader: Reader, read: seq<string>, sent: seq<Part>)

  datatype Main =
    | Setup                        // until run.sh is spawned
    | Running                      // at child.wait()
    | Joining(status: Status)      // at join!, then cleanup
    | Ending(status: Status)       // publishing the terminal event
    | Answering(verdict: Wamp.Verdict)
    | Finished

  // exit is the status, once waited for, and unwaited tells that waiting failed; logs, terminal and reply
  // record what entered the queue.
  datatype Job = Job(
    out: Stream, err: Stream, main: Main, exit: Option<Status>, unwaited: bool,
    logs: seq<Part>, terminal: Option<Part>, reply: Option<Part>)

  function NewJob(): Job {
    Job(Stream(Ended, [], []), Stream(Ended, [], []), Setup, None, false, [], None, None)
  }

  datatype Happening =
    | SetupFailed(verdict: Wamp.Verdict)
    | Spawned
    | Read(err: bool, line: string)
    | Eof(err: bool)
    | Exited(status: Status)
    | WaitFailed(verdict: Wamp.Verdict)    // the readers are left running
    | Joined
    | ReplyDropped                         // try_lock failed

  function StreamOf(job: Job, err: bool): Stream {
    if err then job.err else job.out
  }

  function WithStream(job: Job, err: bool, st: Stream): Job {
    if err then job.(err := st) else job.(out := st)
  }

  predicate May(job: Job, h: Happening) {
    match h
    case SetupFailed(_) => job.main.Setup?
    case Spawned => job.main.Setup?
    case Read(err, _) => StreamOf(job, err).reader.Reading?
    case Eof(err) => StreamOf(job, err).reader.Reading?
    case Exited(_) => job.main.Running?
    case WaitFailed(_) => job.main.Running?
    case Joined => job.main.Joining? && job.out.reader.Ended? && job.err.reader.Ended?
    case ReplyDropped => job.main.Answering?
  }

  function On(job: Job, h: Happening): Job
    requires May(job, h)
  {
    match h
    case SetupFailed(v) => job.(main := Answering(v))
    case Spawned => job.(main := Running, out := job.out.(reader := Reading), err := job.err.(reader := Reading))
    case Read(err, line) =>
      var st := StreamOf(job, err);
      WithStream(job, err, st.(reader := Offering(line), read := st.read + [line]))
    case Eof(err) => WithStream(job, err, StreamOf(job, err).(reader := Ended))
    case Exited(status) => job.(main := Joining(status), exit := Some(status))
    case WaitFailed(v) => job.(main := Answering(v), unwaited := true)
    case Joined => job.(main := Ending(job.main.status))
    case ReplyDropped => job.(main := Finished)
  }

  // The job has a task publishing this part.
  predicate Offers(job: Job, part: Part) {
    match part
    case Log(err, line) => StreamOf(job, err).reader == Offering(line)
    case Terminal(status) => job.main == Ending(status)
    case Reply(verdict) => job.main == Answering(verdict)
  }

  // That publish is over; enqueued tells whether it succeeded. Its result is ignored.
  function Through(show: int -> string, job: Job, part: Part, enqueued: bool): Job {
    match part
    case Log(err, line) =>
      var st := StreamOf(job, err);
      var on := WithStream(job, err, st.(reader := Reading, sent := if enqueued then st.sent + [part] else st.sent));
      if enqueued then on.(logs := job.logs + [part]) else on
    case Terminal(status) =>
      job.(main := Answering(VerdictOf(show, status)), terminal := if enqueued then Some(part) else job.terminal)
    case Reply(_) => job.(main := Finished, reply := if enqueued then Some(part) else job.reply)
  }

  // ── what one job leaves in the queue ─────────────────────────────────────

  function Logs(err: bool, lines: seq<string>): seq<Part> {
    seq(|lines|, i requires 0 <= i < |lines| => Log(err, lines[i]))
  }

  function Opt<T>(o: Option<T>): seq<T> {
    if o.Some? then [o.value] else []
  }

  // Lines enter the queue in the order read, and all of them unless the client has shut down.
  predicate StreamFits(st: Stream, err: bool, closed: bool) {
    && |st.sent| <= |st.read| && st.sent == Logs(err, st.read[..|st.sent|])
    && (st.reader.Offering? ==> st.read != [] && st.read[|st.read| - 1] == st.reader.line)
    && (!closed ==> |st.sent| == |st.read| - if st.reader.Offering? then 1 else 0)
  }

  predicate Complete(st: Stream) {
    st.reader.Ended? && |st.sent| == |st.read|
  }

  predicate MainFits(show: int -> string, job: Job, closed: bool) {
    && (job.main.Setup? || job.main.Running? ==> job.exit.None? && !job.unwaited)
    && (job.main.Joining? || job.main.Ending? ==> job.exit == Some(job.main.status) && !job.unwaited)
    && (job.main.Answering? && job.exit.Some? ==> job.main.verdict == VerdictOf(show, job.exit.value))
    && (job.unwaited ==> job.terminal.None? && job.exit.None?)
    && (job.main.Setup? || job.main.Ending? || ((job.main.Answering? || job.main.Finished?) && !job.unwaited) ==>
          job.out.reader.Ended? && job.err.reader.Ended?)
  }

  predicate Concluded(show: int -> string, job: Job) {
    && (job.terminal.Some? ==>
          job.exit.Some? && job.terminal == Some(Terminal(job.exit.value)) && Complete(job.out) && Complete(job.err)
          && (job.main.Answering? || job.main.Finished?))
    && (job.reply.Some? ==>
          job.main.Finished? && job.reply.value.Reply?
          && (job.exit.Some? ==> job.reply == Some(Reply(VerdictOf(show, job.exit.value)))))
  }

  // Logs, then at most one terminal event, then at most one reply; the reply of a job whose process
  // could not be waited for may stand anywhere among its logs.
  predicate Shaped(job: Job, log: seq<Part>) {
    && Merges(job.logs, job.out.sent, job.err.sent)
    && if job.unwaited then Merges(log, job.logs, Opt(job.reply))
       else log == job.logs + Opt(job.terminal) + Opt(job.reply)
  }

  predicate JobFits(show: int -> string, job: Job, closed: bool, log: seq<Part>) {
    && StreamFits(job.out, false, closed) && StreamFits(job.err, true, closed)
    && MainFits(show, job, closed) && Concluded(show, job) && Shaped(job, log)
  }

  lemma {:induction false} MergesNil<M>(all: seq<M>)
    ensures Merges(all, all, [])
    decreases |all|
  {
    if all != [] {
      MergesNil(all[..|all| - 1]);
    }
  }

  lemma {:induction false} OnShaped(show: int -> string, job: Job, closed: bool, log: seq<Part>, h: Happening)
    requires JobFits(show, job, closed, log) && May(job, h)
    ensures Shaped(On(job, h), log)
  {
    if h.WaitFailed? {
      assert log == job.logs;
      MergesNil(log);
    }
  }

  lemma {:induction false} ReadFits(st: Stream, err: bool, closed: bool, line: string)
    requires StreamFits(st, err, closed) && st.reader.Reading?
    ensures StreamFits(st.(reader := Offering(line), read := st.read + [line]), err, closed)
  {
    assert (st.read + [line])[..|st.sent|] == st.read[..|st.sent|];
  }

  lemma {:induction false} OnFits(show: int -> string, job: Job, closed: bool, log: seq<Part>, h: Happening)
    requires JobFits(show, job, closed, log) && May(job, h)
    ensures JobFits(show, On(job, h), closed, log)
  {
    OnShaped(show, job, closed, log, h);
    if h.Read? {
      ReadFits(StreamOf(job, h.err), h.err, closed, h.line);
    }
  }

  lemma {:induction false} SentFits(st: Stream, err: bool)
    requires StreamFits(st, err, false) && st.reader.Offering?
    ensures StreamFits(st.(reader := Reading, sent := st.sent + [Log(err, st.reader.line)]), err, false)
  {
    var n := |st.sent|;
    assert st.read[..n + 1] == st.read[..n] + [st.reader.line];
  }

  lemma {:induction false} RefusedFits(show: int -> string, job: Job, log: seq<Part>, part: Part)
    requires JobFits(show, job, true, log) && Offers(job, part)
    ensures JobFits(show, Through(show, job, part, false), true, log)
  {
  }

  lemma {:induction false} LogShaped(show: int -> string, job: Job, log: seq<Part>, part: Part)
    requires JobFits(show, job, false, log) && Offers(job, part) && part.Log?
    ensures Shaped(Through(show, job, part, true), log + [part])
  {
    MergesGrow(job.logs, job.out.sent, job.err.sent, part);
    if job.unwaited {
      MergesGrow(log, job.logs, Opt(job.reply), part);
    } else {
      assert job.terminal.None? && job.reply.None?;
      assert log + [part] == job.logs + [part] + [] + [];
    }
  }

  lemma {:induction false} LogFits(show: int -> string, job: Job, log: seq<Part>, part: Part)
    requires JobFits(show, job, false, log) && Offers(job, part) && part.Log?
    ensures JobFits(show, Through(show, job, part, true), false, log + [part])
  {
    LogShaped(show, job, log, part);
    SentFits(StreamOf(job, part.err), part.err);
  }

  lemma {:induction false} EndShaped(show: int -> string, job: Job, log: seq<Part>, part: Part)
    requires JobFits(show, job, false, log) && Offers(job, part) && !part.Log?
    ensures Shaped(Through(show, job, part, true), log + [part])
  {
    assert job.reply.None?;
    if job.unwaited {
      MergesGrow(log, job.logs, [], part);
      assert Opt(Through(show, job, part, true).reply) == [] + [part];
    } else if part.Terminal? {
      assert log + [part] == job.logs + [part] + [];
    } else {
      assert log + [part] == job.logs + Opt(job.terminal) + [part];
    }
  }

  lemma {:induction false} EnqueuedFits(show: int -> string, job: Job, log: seq<Part>, part: Part)
    requires JobFits(show, job, false, log) && Offers(job, part)
    ensures JobFits(show, Through(show, job, part, true), false, log + [part])
  {
    if part.Log? {
      LogFits(show, job, log, part);
    } else {
      EndShaped(show, job, log, part);
    }
  }

  // ── all jobs of a device ─────────────────────────────────────────────────

  // Foreign: published by other tasks of the same client.
  datatype Item = OfJob(j: nat, part: Part) | Foreign(topic: string)

  datatype Device = Device(out: Outbound<Item>, jobs: seq<Job>)

  datatype Event =
    | New                          // a call of execute is dispatched
    | At(j: nat, h: Happening)
    | Acquire(item: Item)          // a publishing task gets publish_tx
    | Pushed
    | Turned(op: Op<Item>)         // connect, drop, stop, install, drain, or a refused send

  predicate Enabled(d: Device, ev: Event) {
    match ev
    case New => !d.out.link.Idle?
    case At(j, h) =>
      j < |d.jobs| && May(d.jobs[j], h) &&
      (h.ReplyDropped? ==> d.out.holder != Some(OfJob(j, Reply(d.jobs[j].main.verdict))))
    case Acquire(item) =>
      Can(d.out, Lock(item)) && (item.OfJob? ==> item.j < |d.jobs| && Offers(d.jobs[item.j], item.part))
    case Pushed => Can(d.out, Push) && (d.out.holder.value.OfJob? ==> d.out.holder.value.j < |d.jobs|)
    case Turned(op) =>
      Can(d.out, op) && !op.Lock? && !op.Push? &&
      (op.Refused? && d.out.holder.value.OfJob? ==> d.out.holder.value.j < |d.jobs|)
  }

  function Update(jobs: seq<Job>, j: nat, job: Job): seq<Job>
    requires j < |jobs|
  {
    jobs[j := job]
  }

  // The task whose message was enqueued or refused goes on.
  function HolderGoesOn(show: int -> string, d: Device, enqueued: bool): seq<Job>
    requires d.out.holder.Some? && (d.out.holder.value.OfJob? ==> d.out.holder.value.j < |d.jobs|)
  {
    match d.out.holder.value
    case OfJob(j, part) => Update(d.jobs, j, Through(show, d.jobs[j], part, enqueued))
    case Foreign(_) => d.jobs
  }

  function After(show: int -> string, d: Device, ev: Event): Device
    requires Enabled(d, ev)
  {
    match ev
    case New => d.(jobs := d.jobs + [NewJob()])
    case At(j, h) => d.(jobs := Update(d.jobs, j, On(d.jobs[j], h)))
    case Acquire(item) => d.(out := Do(d.out, Lock(item)))
    case Pushed => Device(Do(d.out, Push), HolderGoesOn(show, d, true))
    case Turned(op) => Device(Do(d.out, op), if op.Refused? then HolderGoesOn(show, d, false) else d.jobs)
  }

  predicate EnabledAll(show: int -> string, d: Device, evs: seq<Event>)
    decreases |evs|
  {
    evs == [] || (Enabled(d, evs[0]) && EnabledAll(show, After(show, d, evs[0]), evs[1..]))
  }

  function AfterAll(show: int -> string, d: Device, evs: seq<Event>): Device
    requires EnabledAll(show, d, evs)
    decreases |evs|
  {
    if evs == [] then d else AfterAll(show, After(show, d, evs[0]), evs[1..])
  }

  function Start(): Device {
    Device(Fresh(), [])
  }

  // One job's part of a sequence of messages.
  function Of(items: seq<Item>, j: nat): seq<Part>
    decreases |items|
  {
    if items == [] then []
    else
      var (rest, item) := (items[..|items| - 1], items[|items| - 1]);
      if item.OfJob? && item.j == j then Of(rest, j) + [item.part] else Of(rest, j)
  }

  predicate KnownJob(item: Item, n: nat) {
    item.OfJob? ==> item.j < n
  }

  predicate HolderOffers(d: Device) {
    var h := d.out.holder;
    h.Some? && h.value.OfJob? ==> h.value.j < |d.jobs| && Offers(d.jobs[h.value.j], h.value.part)
  }

  predicate FitsAt(show: int -> string, d: Device, j: nat)
    requires j < |d.jobs|
  {
    JobFits(show, d.jobs[j], d.out.link.Closed?, Of(d.out.enqueued, j))
  }

  ghost predicate Fits(show: int -> string, d: Device) {
    && Conserves(d.out)
    && HolderOffers(d)
    && (forall item | item in d.out.enqueued :: KnownJob(item, |d.jobs|))
    && (forall j: nat | j < |d.jobs| :: FitsAt(show, d, j))
  }

  lemma {:induction false} OfAppend(items: seq<Item>, item: Item, j: nat)
    ensures Of(items + [item], j) == if item.OfJob? && item.j == j then Of(items, j) + [item.part] else Of(items, j)
  {
    assert (items + [item])[..|items|] == items;
  }

  lemma {:induction false} OfUnknown(items: seq<Item>, j: nat)
    requires forall item | item in items :: KnownJob(item, j)
    ensures Of(items, j) == []
    decreases |items|
  {
    if items != [] {
      assert items[|items| - 1] in items;
      OfUnknown(items[..|items| - 1], j);
    }
  }

  lemma {:induction false} ClosingFits(show: int -> string, job: Job, closed: bool, log: seq<Part>)
    requires JobFits(show, job, closed, log)
    ensures JobFits(show, job, true, log)
  {
  }

  // What a push makes of one job and its part of the queue.
  lemma {:induction false} PushedJob(show: int -> string, d: Device, j: nat)
    requires Enabled(d, Pushed) && j < |d.jobs|
    ensures var item := d.out.holder.value;
      var own := item.OfJob? && item.j == j;
      var t := After(show, d, Pushed);
      && |t.jobs| == |d.jobs| && t.out.link == d.out.link && !d.out.link.Closed?
      && t.jobs[j] == (if own then Through(show, d.jobs[j], item.part, true) else d.jobs[j])
      && Of(t.out.enqueued, j) == if own then Of(d.out.enqueued, j) + [item.part] else Of(d.out.enqueued, j)
  {
    OfAppend(d.out.enqueued, d.out.holder.value, j);
  }

  lemma {:induction false} PushedFits(show: int -> string, d: Device, j: nat)
    requires Enabled(d, Pushed) && HolderOffers(d) && j < |d.jobs| && FitsAt(show, d, j)
    ensures |After(show, d, Pushed).jobs| == |d.jobs| && FitsAt(show, After(show, d, Pushed), j)
  {
    var item := d.out.holder.value;
    var log := Of(d.out.enqueued, j);
    PushedJob(show, d, j);
    if item.OfJob? && item.j == j {
      EnqueuedFits(show, d.jobs[j], log, item.part);
    }
  }

  lemma {:induction false} RefusedAt(show: int -> string, d: Device, j: nat)
    requires Enabled(d, Turned(Refused)) && HolderOffers(d) && j < |d.jobs| && FitsAt(show, d, j)
    ensures var t := After(show, d, Turned(Refused)); |t.jobs| == |d.jobs| && FitsAt(show, t, j)
  {
    var item := d.out.holder.value;
    if item.OfJob? && item.j == j {
      RefusedFits(show, d.jobs[j], Of(d.out.enqueued, j), item.part);
    }
  }

  lemma {:induction false} TurnedFits(show: int -> string, d: Device, op: Op<Item>, j: nat)
    requires Enabled(d, Turned(op)) && HolderOffers(d) && j < |d.jobs| && FitsAt(show, d, j)
    ensures var t := After(show, d, Turned(op)); |t.jobs| == |d.jobs| && FitsAt(show, t, j)
  {
    if op.Refused? {
      RefusedAt(show, d, j);
    } else {
      ClosingFits(show, d.jobs[j], d.out.link.Closed?, Of(d.out.enqueued, j));
      assert op.Stop? || Do(d.out, op).link.Closed? == d.out.link.Closed?;
    }
  }

  lemma {:induction false} AtFits(show: int -> string, d: Device, k: nat, h: Happening)
    requires Fits(show, d) && Enabled(d, At(k, h))
    ensures Fits(show, After(show, d, At(k, h)))
  {
    var t := After(show, d, At(k, h));
    HolderStep(show, d, At(k, h));
    forall j: nat | j < |t.jobs|
      ensures FitsAt(show, t, j)
    {
      assert FitsAt(show, d, j);
      if j == k {
        OnFits(show, d.jobs[k], d.out.link.Closed?, Of(d.out.enqueued, k), h);
      }
    }
  }

  lemma {:induction false} NewFits(show: int -> string, d: Device)
    requires Fits(show, d) && Enabled(d, New)
    ensures Fits(show, After(show, d, New))
  {
    var t := After(show, d, New);
    OfUnknown(d.out.enqueued, |d.jobs|);
    assert Logs(false, []) == [] && Logs(true, []) == [];
    forall j: nat | j < |t.jobs|
      ensures FitsAt(show, t, j)
    {
      if j < |d.jobs| {
        assert FitsAt(show, d, j);
      }
    }
  }

  lemma {:induction false} HolderStep(show: int -> string, d: Device, ev: Event)
    requires HolderOffers(d) && Enabled(d, ev) && (ev.At? ==> FitsAt(show, d, ev.j))
    ensures HolderOffers(After(show, d, ev))
  {
    var h := d.out.holder;
    if ev.At? && h.Some? && h.value.OfJob? && h.value.j == ev.j {
      KeepsOffering(d.jobs[ev.j], ev.h, h.value.part);
    }
  }

  // Only a dropped reply takes an offer back.
  lemma {:induction false} KeepsOffering(job: Job, h: Happening, part: Part)
    requires May(job, h) && (job.main.Setup? ==> job.out.reader.Ended? && job.err.reader.Ended?)
    requires Offers(job, part) && !(h.ReplyDropped? && part == Reply(job.main.verdict))
    ensures Offers(On(job, h), part)
  {
  }

  lemma {:induction false} StepFits(show: int -> string, d: Device, ev: Event)
    requires Fits(show, d) && Enabled(d, ev)
    ensures Fits(show, After(show, d, ev))
  {
    var t := After(show, d, ev);
    match ev {
      case New => NewFits(show, d);
      case At(k, h) => AtFits(show, d, k, h);
      case Acquire(item) =>
        StepConserves(d.out, Lock(item));
        assert forall j: nat | j < |t.jobs| :: FitsAt(show, d, j) ==> FitsAt(show, t, j);
      case Pushed =>
        StepConserves(d.out, Push);
        HolderStep(show, d, ev);
        forall j: nat | j < |t.jobs| ensures FitsAt(show, t, j) { PushedFits(show, d, j); }
      case Turned(op) =>
        StepConserves(d.out, op);
        HolderStep(show, d, ev);
        forall j: nat | j < |t.jobs| ensures FitsAt(show, t, j) { TurnedFits(show, d, op, j); }
    }
  }

  lemma {:induction false} FitsFrom(show: int -> string, d: Device, evs: seq<Event>)
    requires Fits(show, d) && EnabledAll(show, d, evs)
    ensures Fits(show, AfterAll(show, d, evs))
    decreases |evs|
  {
    if evs != [] {
      StepFits(show, d, evs[0]);
      FitsFrom(show, After(show, d, evs[0]), evs[1..]);
    }
  }

  lemma {:induction false} WithinSnoc<M>(part: seq<M>, all: seq<M>, m: M)
    requires Within(part, all)
    ensures Within(part + [m], all + [m])
  {
    assert (part + [m])[..|part|] == part && (all + [m])[..|all|] == all;
  }

  lemma {:induction false} OfWithin(part: seq<Item>, all: seq<Item>, j: nat)
    requires Within(part, all)
    ensures Within(Of(part, j), Of(all, j))
    decreases |all|
  {
    if part != [] {
      var (rest, m) := (all[..|all| - 1], all[|all| - 1]);
      if part[|part| - 1] == m && Within(part[..|part| - 1], rest) {
        OfWithin(part[..|part| - 1], rest, j);
        if m.OfJob? {
          WithinSnoc(Of(part[..|part| - 1], j), Of(rest, j), m.part);
        }
      } else {
        OfWithin(part, rest, j);
        if m.OfJob? {
          WithinLonger(Of(part, j), Of(rest, j), [m.part]);
        }
      }
    }
  }

  // Waiting for the process of job j failed.
  predicate WaitFails(evs: seq<Event>, j: nat) {
    exists i :: 0 <= i < |evs| && evs[i].At? && evs[i].j == j && evs[i].h.WaitFailed?
  }

  lemma {:induction false} UnwaitedStep(show: int -> string, d: Device, ev: Event, j: nat)
    requires Enabled(d, ev) && j < |After(show, d, ev).jobs| && After(show, d, ev).jobs[j].unwaited
    ensures (j < |d.jobs| && d.jobs[j].unwaited) || (ev.At? && ev.j == j && ev.h.WaitFailed?)
  {
  }

  lemma {:induction false} UnwaitedOnly(show: int -> string, d: Device, evs: seq<Event>, j: nat)
    requires EnabledAll(show, d, evs) && j < |AfterAll(show, d, evs).jobs| && AfterAll(show, d, evs).jobs[j].unwaited
    ensures (j < |d.jobs| && d.jobs[j].unwaited) || WaitFails(evs, j)
    decreases |evs|
  {
    if evs != [] {
      var t := After(show, d, evs[0]);
      UnwaitedOnly(show, t, evs[1..], j);
      if WaitFails(evs[1..], j) {
        var i :| 0 <= i < |evs[1..]| && evs[1..][i].At? && evs[1..][i].j == j && evs[1..][i].h.WaitFailed?;
        assert evs[i + 1] == evs[1..][i];
      } else {
        UnwaitedStep(show, d, evs[0], j);
      }
    }
  }

  // Lines, each stream in order, then the terminal event, then the reply.
  predicate InOrder(job: Job, log: seq<Part>) {
    Merges(job.logs, job.out.sent, job.err.sent) && log == job.logs + Opt(job.terminal) + Opt(job.reply)
  }

  /** In every run of any number of jobs, what a job enqueued is its stdout and stderr lines, each stream in
      order, then at most one terminal event, then at most one agreeing reply, unless waiting for its process
      failed; then there is no terminal event and the reply may stand anywhere among the lines. When the
      terminal event is there, so is every line that was read. What reaches the socket is an in-order
      subsequence. */
  lemma {:induction false} EveryJobInOrder(show: int -> string, evs: seq<Event>, j: nat)
    requires EnabledAll(show, Start(), evs) && j < |AfterAll(show, Start(), evs).jobs|
    ensures var d := AfterAll(show, Start(), evs);
      var log := Of(d.out.enqueued, j);
      && FitsAt(show, d, j)
      && (!WaitFails(evs, j) ==> InOrder(d.jobs[j], log))
      && Within(Of(d.out.sent, j), log)
  {
    FreshConserves<Item>();
    FitsFrom(show, Start(), evs);
    var d := AfterAll(show, Start(), evs);
    if d.jobs[j].unwaited {
      UnwaitedOnly(show, Start(), evs, j);
    }
    SentInOrder(d.out);
    OfWithin(d.out.sent, d.out.enqueued, j);
  }

  lemma {:induction false} Prepend(show: int -> string, d: Device, ev: Event, rest: seq<Event>)
    requires Enabled(d, ev) && EnabledAll(show, After(show, d, ev), rest)
    ensures EnabledAll(show, d, [ev] + rest) && AfterAll(show, d, [ev] + rest) == AfterAll(show, After(show, d, ev), rest)
  {
    assert ([ev] + rest)[1..] == rest;
  }

  // The process of job j exited like this.
  predicate Exits(evs: seq<Event>, j: nat, status: Status) {
    At(j, Exited(status)) in evs
  }

  lemma {:induction false} ExitStep(show: int -> string, d: Device, ev: Event, j: nat)
    requires Enabled(d, ev) && j < |After(show, d, ev).jobs| && After(show, d, ev).jobs[j].exit.Some?
    ensures (j < |d.jobs| && d.jobs[j].exit == After(show, d, ev).jobs[j].exit)
         || ev == At(j, Exited(After(show, d, ev).jobs[j].exit.value))
  {
  }

  lemma {:induction false} ExitCause(show: int -> string, d: Device, evs: seq<Event>, j: nat)
    requires EnabledAll(show, d, evs) && j < |AfterAll(show, d, evs).jobs| && AfterAll(show, d, evs).jobs[j].exit.Some?
    ensures var exit := AfterAll(show, d, evs).jobs[j].exit;
      (j < |d.jobs| && d.jobs[j].exit == exit) || Exits(evs, j, exit.value)
    decreases |evs|
  {
    if evs != [] {
      var t := After(show, d, evs[0]);
      ExitCause(show, t, evs[1..], j);
      if j < |t.jobs| && t.jobs[j].exit == AfterAll(show, d, evs).jobs[j].exit {
        ExitStep(show, d, evs[0], j);
      }
    }
  }

  // A job without an exit status that answers, or has replied, with this verdict.
  predicate Answers(job: Job, v: Wamp.Verdict) {
    job.exit.None? && (job.main == Answering(v) || job.reply == Some(Reply(v)))
  }

  lemma {:induction false} AnswerOn(job: Job, h: Happening, v: Wamp.Verdict)
    requires May(job, h) && Answers(On(job, h), v)
    ensures Answers(job, v) || h == SetupFailed(v) || h == WaitFailed(v)
  {
  }

  lemma {:induction false} AnswerThrough(show: int -> string, job: Job, part: Part, enqueued: bool, v: Wamp.Verdict)
    requires Offers(job, part) && (job.main.Ending? ==> job.exit.Some?) && Answers(Through(show, job, part, enqueued), v)
    ensures Answers(job, v)
  {
  }

  lemma {:induction false} AnswerStep(show: int -> string, d: Device, ev: Event, j: nat, v: Wamp.Verdict)
    requires Fits(show, d) && Enabled(d, ev) && j < |After(show, d, ev).jobs| && Answers(After(show, d, ev).jobs[j], v)
    ensures (j < |d.jobs| && Answers(d.jobs[j], v)) || ev == At(j, SetupFailed(v)) || ev == At(j, WaitFailed(v))
  {
    if j < |d.jobs| {
      assert FitsAt(show, d, j);
      match ev {
        case At(k, h) => if k == j { AnswerOn(d.jobs[j], h, v); }
        case Pushed => HeldAnswer(show, d, j, true, v);
        case Turned(op) => if op.Refused? { HeldAnswer(show, d, j, false, v); }
        case _ =>
      }
    }
  }

  lemma {:induction false} HeldAnswer(show: int -> string, d: Device, j: nat, enqueued: bool, v: Wamp.Verdict)
    requires HolderOffers(d) && d.out.holder.Some? && (d.out.holder.value.OfJob? ==> d.out.holder.value.j < |d.jobs|)
    requires j < |d.jobs| && FitsAt(show, d, j) && Answers(HolderGoesOn(show, d, enqueued)[j], v)
    ensures Answers(d.jobs[j], v)
  {
    var h := d.out.holder.value;
    if h.OfJob? && h.j == j {
      AnswerThrough(show, d.jobs[j], h.part, enqueued, v);
    }
  }

  lemma {:induction false} AnswerCause(show: int -> string, d: Device, evs: seq<Event>, j: nat, v: Wamp.Verdict)
    requires Fits(show, d) && EnabledAll(show, d, evs) && j < |AfterAll(show, d, evs).jobs|
    requires Answers(AfterAll(show, d, evs).jobs[j], v)
    ensures (j < |d.jobs| && Answers(d.jobs[j], v)) || At(j, SetupFailed(v)) in evs || At(j, WaitFailed(v)) in evs
    decreases |evs|
  {
    if evs != [] {
      var t := After(show, d, evs[0]);
      StepFits(show, d, evs[0]);
      AnswerCause(show, t, evs[1..], j, v);
      if j < |t.jobs| && Answers(t.jobs[j], v) {
        AnswerStep(show, d, evs[0], j, v);
      }
    }
  }

  /** A job without an exit status replies with the error of its failed set-up or of the failed wait. */
  lemma {:induction false} FailuresAreTold(show: int -> string, evs: seq<Event>, j: nat)
    requires EnabledAll(show, Start(), evs) && j < |AfterAll(show, Start(), evs).jobs|
    requires var job := AfterAll(show, Start(), evs).jobs[j]; job.exit.None? && job.reply.Some?
    ensures var reply := AfterAll(show, Start(), evs).jobs[j].reply.value;
      reply.Reply? && (At(j, SetupFailed(reply.verdict)) in evs || At(j, WaitFailed(reply.verdict)) in evs)
  {
    EveryJobInOrder(show, evs, j);
    FreshConserves<Item>();
    AnswerCause(show, Start(), evs, j, AfterAll(show, Start(), evs).jobs[j].reply.value.verdict);
  }

  /** What a job reports is how its process exited: the terminal event it enqueued is of that status, and the verdict it
      replied with reports the same. */
  lemma {:induction false} JobsReport(show: int -> string, evs: seq<Event>, j: nat, id: string)
    requires EnabledAll(show, Start(), evs) && j < |AfterAll(show, Start(), evs).jobs|
    requires AfterAll(show, Start(), evs).jobs[j].exit.Some?
    ensures var job := AfterAll(show, Start(), evs).jobs[j];
      var status := job.exit.value;
      && Exits(evs, j, status)
      && (job.terminal.Some? ==> job.terminal.value == Terminal(status))
      && (job.reply.Some? ==>
            job.reply.value.Reply? && Reports(show, id, status, TerminalEvent(show, id, status), job.reply.value.verdict))
  {
    EveryJobInOrder(show, evs, j);
    ExitCause(show, Start(), evs, j);
    EndsReport(show, id, AfterAll(show, Start(), evs).jobs[j].exit.value, false, "");
  }

  // A device whose one job could not be waited for and has replied.
  function Overtaken(v: Wamp.Verdict): Device {
    var item := OfJob(0, Reply(v));
    var open := Stream(Reading, [], []);
    Device(Outbound(Down, [item], None, [item], [], [], 0),
           [Job(open, open, Finished, None, true, [], None, Some(Reply(v)))])
  }

  lemma {:induction false} Overtaking(show: int -> string, v: Wamp.Verdict, rest: seq<Event>) returns (evs: seq<Event>)
    requires EnabledAll(show, Overtaken(v), rest)
    ensures EnabledAll(show, Start(), evs) && AfterAll(show, Start(), evs) == AfterAll(show, Overtaken(v), rest)
  {
    var d1 := After(show, Start(), Turned(Install));
    var d2 := After(show, d1, New);
    var d3 := After(show, d2, At(0, Spawned));
    var d4 := After(show, d3, At(0, WaitFailed(v)));
    var d5 := After(show, d4, Acquire(OfJob(0, Reply(v))));
    assert After(show, d5, Pushed) == Overtaken(v);
    Prepend(show, d5, Pushed, rest);
    evs := [Pushed] + rest;
    Prepend(show, d4, Acquire(OfJob(0, Reply(v))), evs);
    evs := [Acquire(OfJob(0, Reply(v)))] + evs;
    Prepend(show, d3, At(0, WaitFailed(v)), evs);
    evs := [At(0, WaitFailed(v))] + evs;
    Prepend(show, d2, At(0, Spawned), evs);
    evs := [At(0, Spawned)] + evs;
    Prepend(show, d1, New, evs);
    evs := [New] + evs;
    Prepend(show, Start(), Turned(Install), evs);
    evs := [Turned(Install)] + evs;
  }

  /** The exception is real: when waiting for run.sh fails, a line can follow the reply. */
  lemma {:induction false} LogAfterReply(show: int -> string, v: Wamp.Verdict, line: string) returns (evs: seq<Event>)
    ensures EnabledAll(show, Start(), evs)
    ensures var d := AfterAll(show, Start(), evs); |d.jobs| == 1 && Of(d.out.enqueued, 0) == [Reply(v), Log(false, line)]
  {
    var reply, log := OfJob(0, Reply(v)), OfJob(0, Log(false, line));
    var d1 := After(show, Overtaken(v), At(0, Read(false, line)));
    var d2 := After(show, d1, Acquire(log));
    var d3 := After(show, d2, Pushed);
    Prepend(show, d2, Pushed, []);
    Prepend(show, d1, Acquire(log), [Pushed] + []);
    Prepend(show, Overtaken(v), At(0, Read(false, line)), [Acquire(log)] + ([Pushed] + []));
    evs := Overtaking(show, v, [At(0, Read(false, line))] + ([Acquire(log)] + ([Pushed] + [])));
    assert d3.out.enqueued == [] + [reply] + [log];
    OfAppend([] + [reply], log, 0);
    OfAppend([], reply, 0);
  }
}
