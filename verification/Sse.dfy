/** src/rpc.rs, stream_job: draining complete lines out of a growing buffer, against the
    meaning of the whole stream. Event streams: HTML Living Standard, sections 9.2.5 and 9.2.6. */
module Sse {
  import opened Prelude
  import opened Json
  import opened Text

  datatype Chunk = Data(text: string) | Broken(reason: string)

  datatype Why = ExitCode(code: int) | JobError(message: string) | ReadError(reason: string) | StreamEnded
  type Outcome = Result<(), Why>

  datatype Printed = Out(text: string) | ErrOut(text: string) | BadEvent(data: string)

  // What one line does.
  datatype Step = Skip | Say(p: Printed) | Stop(outcome: Outcome)

  const FIELD: string := "data:"

  function EventType(event: Json): string {
    OrElse(AsStr(Get(event, "type")), "")
  }

  function StepOfEvent(event: Json, data: string): Step {
    if EventType(event) == "log" then
      var text := OrElse(AsStr(Get(event, "line")), "");
      Say(if OrElse(AsStr(Get(event, "stream")), "stdout") == "stderr" then ErrOut(text) else Out(text))
    else if EventType(event) == "done" then
      var code := OrElse(AsI64(Get(event, "exit_code")), 0);
      Stop(if code != 0 then Err(ExitCode(code)) else Ok(()))
    else if EventType(event) == "error" then
      Stop(Err(JobError(OrElse(AsStr(Get(event, "message")), "unknown error"))))
    else Say(Out("rpc: " + data))
  }

  function StepOf(parse: string -> Option<Json>, raw: string): Step {
    var line := TrimEndCr(raw);
    if !(FIELD <= line) then Skip else
      var data := TrimStart(line[|FIELD|..]);
      match parse(data)
      case None => Say(BadEvent(data))
      case Some(event) => StepOfEvent(event, data)
  }

  datatype Play = Play(printed: seq<Printed>, stop: Option<Outcome>)

  // Lines are acted on in order until one of them stops the job.
  function Interpret(parse: string -> Option<Json>, lines: seq<string>): Play {
    if lines == [] then Play([], None)
    else match StepOf(parse, lines[0])
      case Skip => Interpret(parse, lines[1..])
      case Stop(outcome) => Play([], Some(outcome))
      case Say(p) => var rest := Interpret(parse, lines[1..]); Play([p] + rest.printed, rest.stop)
  }

  // The text received before the stream ends or breaks, and how it breaks.
  function Received(chunks: seq<Chunk>): string {
    if chunks == [] || chunks[0].Broken? then "" else chunks[0].text + Received(chunks[1..])
  }

  function Breakage(chunks: seq<Chunk>): Why {
    if chunks == [] then StreamEnded
    else if chunks[0].Broken? then ReadError(chunks[0].reason)
    else Breakage(chunks[1..])
  }

  // The meaning of a stream: its terminated lines taken as a whole.
  function Meaning(parse: string -> Option<Json>, chunks: seq<Chunk>): (seq<Printed>, Outcome) {
    var play := Interpret(parse, Terminated(Received(chunks)));
    (play.printed, if play.stop.Some? then play.stop.value else Err(Breakage(chunks)))
  }

  // ── the loop ─────────────────────────────────────────────────────────────

  // The body of the inner loop; Skip is its continue, Stop its return.
  method HandleLine(parse: string -> Option<Json>, raw: string) returns (step: Step)
    ensures step == StepOf(parse, raw)
  {
    var line := TrimEndCr(raw);
    if line == "" { return Skip; }
    var stripped := StripPrefix(line, FIELD);
    if stripped.None? { return Skip; }
    var data := TrimStart(stripped.value);
    var event := parse(data);
    if event.None? { return Say(BadEvent(data)); }
    match EventType(event.value) {
      case "log" =>
        var stream := OrElse(AsStr(Get(event.value, "stream")), "stdout");
        var text := OrElse(AsStr(Get(event.value, "line")), "");
        return Say(if stream == "stderr" then ErrOut(text) else Out(text));
      case "done" =>
        var code := OrElse(AsI64(Get(event.value, "exit_code")), 0);
        if code != 0 { return Stop(Err(ExitCode(code))); }
        return Stop(Ok(()));
      case "error" =>
        return Stop(Err(JobError(OrElse(AsStr(Get(event.value, "message")), "unknown error"))));
      case _ =>
        return Say(Out("rpc: " + data));
    }
  }

  lemma {:induction false} InterpretAppend(parse: string -> Option<Json>, a: seq<string>, b: seq<string>)
    requires Interpret(parse, a).stop.None?
    ensures Interpret(parse, a + b)
         == Play(Interpret(parse, a).printed + Interpret(parse, b).printed, Interpret(parse, b).stop)
  {
    if a == [] {
      assert a + b == b;
    } else {
      assert (a + b)[1..] == a[1..] + b;
      InterpretAppend(parse, a[1..], b);
    }
  }

  lemma {:induction false} InterpretOne(parse: string -> Option<Json>, line: string, step: Step)
    requires step == StepOf(parse, line)
    ensures Interpret(parse, [line]) == match step
      case Skip => Play([], None)
      case Say(p) => Play([p], None)
      case Stop(outcome) => Play([], Some(outcome))
  {
    assert [line][1..] == [];
  }

  lemma {:induction false} StopsHere(parse: string -> Option<Json>, a: seq<string>, line: string, rest: seq<string>)
    requires Interpret(parse, a).stop.None? && StepOf(parse, line).Stop?
    ensures Interpret(parse, a + [line] + rest) == Play(Interpret(parse, a).printed, Some(StepOf(parse, line).outcome))
  {
    assert a + [line] + rest == a + ([line] + rest);
    InterpretAppend(parse, a, [line] + rest);
  }

  lemma {:induction false} GoesOn(parse: string -> Option<Json>, a: seq<string>, line: string, step: Step)
    requires Interpret(parse, a).stop.None? && step == StepOf(parse, line) && !step.Stop?
    ensures Interpret(parse, a + [line])
         == Play(if step.Say? then Interpret(parse, a).printed + [step.p] else Interpret(parse, a).printed, None)
  {
    InterpretAppend(parse, a, [line]);
    InterpretOne(parse, line, step);
  }

  /** The buffer-draining loop prints and returns what the stream as a whole means. */
  method StreamJob(parse: string -> Option<Json>, chunks: seq<Chunk>) returns (printed: seq<Printed>, outcome: Outcome)
    ensures (printed, outcome) == Meaning(parse, chunks)
  {
    var buf := "";
    printed := [];
    ghost var sofar, done := "", [];
    for i := 0 to |chunks|
      invariant Received(chunks) == sofar + Received(chunks[i..])
      invariant Breakage(chunks) == Breakage(chunks[i..])
      invariant Terminated(sofar) == done && Unterminated(sofar) == buf
      invariant Interpret(parse, done) == Play(printed, None)
    {
      assert chunks[i..][1..] == chunks[i + 1..];
      if chunks[i].Broken? {
        assert sofar + "" == sofar;
        return printed, Err(ReadError(chunks[i].reason));
      }
      ghost var rest := Received(chunks[i + 1..]);
      Assoc(sofar, chunks[i].text, rest);
      TerminatedAppend(sofar, chunks[i].text);
      buf := buf + chunks[i].text;
      sofar := sofar + chunks[i].text;
      var stopped;
      printed, buf, done, stopped := Drain(parse, printed, buf, done);
      if stopped.Some? {
        TerminatedAppend(sofar, rest);
        StoppedFor(parse, done, Terminated(Unterminated(sofar) + rest), printed, stopped.value);
        return printed, stopped.value;
      }
    }
    assert chunks[|chunks|..] == [];
    assert sofar + "" == sofar;
    outcome := Err(StreamEnded);
  }

  lemma {:induction false} StoppedFor(parse: string -> Option<Json>, a: seq<string>, b: seq<string>,
                                      printed: seq<Printed>, outcome: Outcome)
    requires Interpret(parse, a) == Play(printed, Some(outcome))
    ensures Interpret(parse, a + b) == Play(printed, Some(outcome))
  {
    assert a != [];
    assert (a + b)[1..] == a[1..] + b;
    match StepOf(parse, a[0]) {
      case Stop(_) =>
      case Skip => StoppedFor(parse, a[1..], b, printed, outcome);
      case Say(p) =>
        var rest := Interpret(parse, a[1..]).printed;
        StoppedFor(parse, a[1..], b, rest, outcome);
    }
  }

  // The inner loop over one buffer: it acts on every complete line, or stops at one.
  method Drain(parse: string -> Option<Json>, before: seq<Printed>, text: string, ghost past: seq<string>)
    returns (printed: seq<Printed>, buf: string, ghost done: seq<string>, stopped: Option<Outcome>)
    requires Interpret(parse, past) == Play(before, None)
    ensures done == past + Terminated(text)
    ensures Interpret(parse, done) == Play(printed, stopped)
    ensures stopped.None? ==> buf == Unterminated(text)
  {
    printed, buf, done := before, text, past;
    while true
      invariant past + Terminated(text) == done + Terminated(buf)
      invariant Unterminated(text) == Unterminated(buf)
      invariant Interpret(parse, done) == Play(printed, None)
      decreases |buf|
    {
      var idx := Find(buf, '\n');
      if idx.None? {
        assert done + [] == done;
        return printed, buf, done, None;
      }
      var line := buf[..idx.value];
      buf := buf[idx.value + 1..];
      assert done + ([line] + Terminated(buf)) == done + [line] + Terminated(buf);
      var step := HandleLine(parse, line);
      match step {
        case Skip =>
          GoesOn(parse, done, line, step);
        case Say(p) =>
          GoesOn(parse, done, line, step);
          printed := printed + [p];
        case Stop(outcome) =>
          StopsHere(parse, done, line, Terminated(buf));
          done := done + [line] + Terminated(buf);
          return printed, buf, done, Some(outcome);
      }
      done := done + [line];
    }
  }

  // ── what the meaning says ────────────────────────────────────────────────

  /** Chunk invariance: only the received text and the way the stream ends matter. */
  lemma {:induction false} ChunkInvariance(parse: string -> Option<Json>, chunks: seq<Chunk>, i: nat, cut: nat)
    requires i < |chunks| && chunks[i].Data? && cut <= |chunks[i].text|
    ensures Meaning(parse, chunks[..i] + [Data(chunks[i].text[..cut]), Data(chunks[i].text[cut..])] + chunks[i + 1..])
         == Meaning(parse, chunks)
  {
    var split := [Data(chunks[i].text[..cut]), Data(chunks[i].text[cut..])];
    SplitKeepsText(chunks, i, cut);
  }

  lemma {:induction false} SplitKeepsText(chunks: seq<Chunk>, i: nat, cut: nat)
    requires i < |chunks| && chunks[i].Data? && cut <= |chunks[i].text|
    ensures var cs := chunks[..i] + [Data(chunks[i].text[..cut]), Data(chunks[i].text[cut..])] + chunks[i + 1..];
      Received(cs) == Received(chunks) && Breakage(cs) == Breakage(chunks)
  {
    var text := chunks[i].text;
    var cs := chunks[..i] + [Data(text[..cut]), Data(text[cut..])] + chunks[i + 1..];
    if i == 0 {
      assert cs[1..][1..] == chunks[1..];
      Assoc(text[..cut], text[cut..], Received(chunks[1..]));
      assert text[..cut] + text[cut..] == text;
    } else {
      SplitKeepsText(chunks[1..], i - 1, cut);
      assert chunks[1..][..i - 1] == chunks[..i][1..] && chunks[1..][i..] == chunks[i + 1..];
      assert cs[1..] == chunks[1..][..i - 1] + [Data(text[..cut]), Data(text[cut..])] + chunks[1..][i..];
    }
  }

  /** An unterminated last line is never acted on. */
  lemma {:induction false} TailIgnored(parse: string -> Option<Json>, text: string, tail: string)
    requires '\n' !in tail
    ensures Interpret(parse, Terminated(text + tail)) == Interpret(parse, Terminated(text))
  {
    TerminatedAppend(text, tail);
    assert Terminated(Unterminated(text) + tail) == [];
    assert Terminated(text) + [] == Terminated(text);
  }

  predicate Has(event: Json, key: string, what: Json) {
    event.Obj? && key in event.fields && event.fields[key] == what
  }

  // No text under this key.
  ghost predicate Lacks(event: Json, key: string) {
    forall text :: !Has(event, key, Str(text))
  }

  predicate Fits64(code: int) {
    -0x8000_0000_0000_0000 <= code <= 0x7FFF_FFFF_FFFF_FFFF
  }

  // No 64-bit integer under this key.
  ghost predicate Codeless(event: Json, key: string) {
    forall code :: Fits64(code) ==> !Has(event, key, Int(code))
  }

  /** What the lines of a job do. A data line with a log event prints its text, on the error side only when it says
      stderr; done with a code other than 0 fails with it and done without a code succeeds; error fails with its
      message; any other event, and anything that is no JSON, is shown. A line that is no data line does nothing. */
  lemma {:induction false} EventsAct(parse: string -> Option<Json>, text: string, event: Json, line: string, code: int)
    ensures TrimEndCr("data:" + text) == "data:" + TrimEndCr(text)
    ensures var (data, step) := (TrimStart(TrimEndCr(text)), StepOf(parse, "data:" + text));
      && (parse(data) == None ==> step == Say(BadEvent(data)))
      && (parse(data) == Some(event) ==>
            && (Has(event, "type", Str("log")) && Has(event, "line", Str(line)) ==>
                  step == Say(if Has(event, "stream", Str("stderr")) then ErrOut(line) else Out(line)))
            && (Has(event, "type", Str("log")) && Lacks(event, "line") ==>
                  step == Say(if Has(event, "stream", Str("stderr")) then ErrOut("") else Out("")))
            && (Has(event, "type", Str("done")) && Has(event, "exit_code", Int(code)) && Fits64(code) ==>
                  step == Stop(if code == 0 then Ok(()) else Err(ExitCode(code))))
            && (Has(event, "type", Str("done")) && Codeless(event, "exit_code") ==> step == Stop(Ok(())))
            && (Has(event, "type", Str("error")) && Has(event, "message", Str(line)) ==> step == Stop(Err(JobError(line))))
            && (Has(event, "type", Str("error")) && Lacks(event, "message") ==> step == Stop(Err(JobError("unknown error"))))
            && (!Has(event, "type", Str("log")) && !Has(event, "type", Str("done")) && !Has(event, "type", Str("error")) ==>
                  step == Say(Out("rpc: " + data))))
  {
    DataStays(text);
    assert ("data:" + TrimEndCr(text))[5..] == TrimEndCr(text);
    EventDefaults(event);
    assert "log"[0] != "done"[0] && "log"[0] != "error"[0] && "done"[0] != "error"[0] && "stderr" != "stdout";
  }

  lemma {:induction false} EventDefaults(event: Json)
    ensures Lacks(event, "line") ==> AsStr(Get(event, "line")).None?
    ensures Lacks(event, "message") ==> AsStr(Get(event, "message")).None?
    ensures Codeless(event, "exit_code") ==> AsI64(Get(event, "exit_code")).None?
  {
    var (line, message, code) := (AsStr(Get(event, "line")), AsStr(Get(event, "message")), AsI64(Get(event, "exit_code")));
    assert line.Some? ==> Has(event, "line", Str(line.value));
    assert message.Some? ==> Has(event, "message", Str(message.value));
    assert code.Some? ==> Has(event, "exit_code", Int(code.value)) && Fits64(code.value);
  }

  function Chunks(texts: seq<string>): seq<Chunk> {
    seq(|texts|, i requires 0 <= i < |texts| => Data(texts[i]))
  }

  function Concat(texts: seq<string>): string {
    if texts == [] then "" else texts[0] + Concat(texts[1..])
  }

  /** What is received is the text of all chunks up to the one that breaks, which is then the way the stream ends. */
  lemma {:induction false} ReceivedIsText(texts: seq<string>, rest: seq<Chunk>)
    requires rest == [] || rest[0].Broken?
    ensures Received(Chunks(texts) + rest) == Concat(texts)
    ensures Breakage(Chunks(texts) + rest) == if rest == [] then StreamEnded else ReadError(rest[0].reason)
  {
    var all := Chunks(texts) + rest;
    if texts == [] {
      assert all == rest;
    } else {
      assert all[0] == Data(texts[0]) && all[1..] == Chunks(texts[1..]) + rest;
      ReceivedIsText(texts[1..], rest);
    }
  }

  lemma {:induction false} DataStays(text: string)
    ensures TrimEndCr("data:" + text) == "data:" + TrimEndCr(text)
  {
    if text == "" {
      assert "data:" + "" == "data:";
    } else if text[|text| - 1] == '\r' {
      DataStays(text[..|text| - 1]);
      assert ("data:" + text)[..|"data:" + text| - 1] == "data:" + text[..|text| - 1];
    }
  }

  lemma {:induction false} OtherLinesSkip(parse: string -> Option<Json>, raw: string)
    requires !("data:" <= raw)
    ensures StepOf(parse, raw) == Skip
  {
  }

  predicate FirstStop(parse: string -> Option<Json>, lines: seq<string>, k: nat, outcome: Outcome) {
    && k < |lines| && StepOf(parse, lines[k]) == Stop(outcome)
    && forall j :: 0 <= j < k ==> !StepOf(parse, lines[j]).Stop?
  }

  /** The job ends with an outcome exactly when the first line that stops it has that outcome. */
  lemma {:induction false} StopIsFirst(parse: string -> Option<Json>, lines: seq<string>, outcome: Outcome)
    ensures Interpret(parse, lines).stop == Some(outcome) <==> exists k: nat :: FirstStop(parse, lines, k, outcome)
  {
    if lines != [] {
      StopIsFirst(parse, lines[1..], outcome);
      var tail := lines[1..];
      if StepOf(parse, lines[0]).Stop? {
        assert StepOf(parse, lines[0]) == Stop(outcome) ==> FirstStop(parse, lines, 0, outcome);
      } else {
        assert forall k: nat :: FirstStop(parse, tail, k, outcome) ==> FirstStop(parse, lines, k + 1, outcome);
        assert forall k: nat :: FirstStop(parse, lines, k, outcome) ==> k > 0 && FirstStop(parse, tail, k - 1, outcome);
      }
    }
  }

  // A line carrying a done event whose exit code is 0, absent or no 64-bit integer.
  predicate DoneWithZero(parse: string -> Option<Json>, raw: string) {
    var line := TrimEndCr(raw);
    && FIELD <= line
    && parse(TrimStart(line[|FIELD|..])).Some?
    && var event := parse(TrimStart(line[|FIELD|..])).value;
      && AsStr(Get(event, "type")) == Some("done")
      && (AsI64(Get(event, "exit_code")) == Some(0) || AsI64(Get(event, "exit_code")) == None)
  }

  lemma {:induction false} OkIsDone(parse: string -> Option<Json>, raw: string)
    ensures StepOf(parse, raw) == Stop(Ok(())) <==> DoneWithZero(parse, raw)
  {
  }

  predicate FirstDone(parse: string -> Option<Json>, lines: seq<string>, k: nat) {
    && k < |lines| && DoneWithZero(parse, lines[k])
    && forall j :: 0 <= j < k ==> !StepOf(parse, lines[j]).Stop?
  }

  /** The command succeeds exactly when the first stopping line is a done event with exit code
      0, absent or unreadable. */
  lemma {:induction false} OkIff(parse: string -> Option<Json>, chunks: seq<Chunk>)
    ensures Meaning(parse, chunks).1 == Ok(())
      <==> exists k: nat :: FirstDone(parse, Terminated(Received(chunks)), k)
  {
    var lines := Terminated(Received(chunks));
    StopIsFirst(parse, lines, Ok(()));
    forall k: nat ensures FirstDone(parse, lines, k) <==> FirstStop(parse, lines, k, Ok(())) {
      if k < |lines| {
        OkIsDone(parse, lines[k]);
      }
    }
  }
}
