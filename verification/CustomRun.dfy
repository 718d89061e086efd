/** src/bin/remote-task-controller/customrun.rs: the reconciler of one CustomRun as a state machine
    over its API calls, with crashes between any two of them. */
module CustomRun {
  import opened Prelude
  import opened Json
  import opened MergePatch

  // ── conditions ───────────────────────────────────────────────────────────

  function Conditions(doc: Json): seq<Json> {
    var status := Get(doc, "status");
    var conditions := if status.Some? then Get(status.value, "conditions") else None;
    if conditions.Some? && conditions.value.Arr? then conditions.value.items else []
  }

  predicate IsSucceeded(c: Json) {
    AsStr(Get(c, "type")) == Some("Succeeded")
  }

  // is_terminal: any Succeeded condition that does not say Unknown, even one without a status.
  predicate IsTerminal(run: Json) {
    var cs := Conditions(run);
    exists i :: 0 <= i < |cs| && IsSucceeded(cs[i]) && AsStr(Get(cs[i], "status")) != Some("Unknown")
  }

  predicate HasCompletion(run: Json) {
    var status := Get(run, "status");
    status.Some? && Get(status.value, "completionTime").Some?
  }

  function FirstSucceeded(cs: seq<Json>): Option<Json> {
    if cs == [] then None else if IsSucceeded(cs[0]) then Some(cs[0]) else FirstSucceeded(cs[1..])
  }

  // What a TaskRun's Succeeded condition says.
  datatype Report = Pending | Passed | Failing(message: string)

  function ReportOf(taskrun: Json): Report {
    var c := FirstSucceeded(Conditions(taskrun));
    if c.None? then Pending else
      var status := OrElse(AsStr(Get(c.value, "status")), "Unknown");
      if status == "True" then Passed
      else if status == "False" then Failing(OrElse(AsStr(Get(c.value, "message")), "TaskRun failed"))
      else Pending
  }

  // ── status patches ───────────────────────────────────────────────────────

  datatype Mark = Running | Succeeded | Failed(message: string)

  function Condition(m: Mark, now: string): Json {
    var (status, reason, message) :=
      match m
      case Running => ("Unknown", "Running", "TaskRun is running")
      case Succeeded => ("True", "TaskRunSucceeded", "TaskRun completed successfully")
      case Failed(text) => ("False", "TaskRunFailed", text);
    Obj(map["type" := Str("Succeeded"), "status" := Str(status), "reason" := Str(reason), "message" := Str(message),
            "lastTransitionTime" := Str(now)])
  }

  function StatusPatch(m: Mark, now: string): Json {
    var base := map["conditions" := Arr([Condition(m, now)])];
    Obj(map["status" := Obj(if m.Running? then base else base["completionTime" := Str(now)])])
  }

  function Marked(run: Json, m: Mark, now: string): Json {
    Patched(run, StatusPatch(m, now))
  }

  // The mark a status carries, whatever its time.
  ghost predicate Carries(run: Json, m: Mark) {
    exists now :: Conditions(run) == [Condition(m, now)]
  }

  lemma {:induction false} MarkedStatus(run: Json, m: Mark, now: string)
    ensures var status := Get(Marked(run, m, now), "status");
      && status.Some? && Get(status.value, "conditions") == Some(Arr([Condition(m, now)]))
      && (Get(status.value, "completionTime").Some? <==> !m.Running? || HasCompletion(run))
  {
    var patch := StatusPatch(m, now).fields["status"];
    var was := OrElse(Get(run, "status"), Null);
    PatchedField(run, StatusPatch(m, now), "status");
    PatchedField(was, patch, "conditions");
    PatchedField(was, patch, "completionTime");
  }

  /** Whatever the object held, after a patch its only condition is the new one; it is terminal
      unless the mark is Running, and a completion time once there is never taken back. */
  lemma {:induction false} MarkedReads(run: Json, m: Mark, now: string)
    ensures var t := Marked(run, m, now);
      && Conditions(t) == [Condition(m, now)] && Carries(t, m)
      && (IsTerminal(t) <==> !m.Running?)
      && (HasCompletion(t) <==> !m.Running? || HasCompletion(run))
  {
    MarkedStatus(run, m, now);
    var t := Marked(run, m, now);
    var c := Condition(m, now);
    assert Conditions(t)[0] == c && IsSucceeded(c);
    assert "True" != "Unknown" && "False" != "Unknown";
  }

  predicate Stamped(doc: Json, key: string, now: string) {
    doc.Obj? && key in doc.fields && doc.fields[key] == Str(now)
  }

  /** The condition bears the time of the patch, and so does the completion unless the mark is Running, which leaves the
      completion time as it is. */
  lemma {:induction false} MarkedStamps(run: Json, m: Mark, now: string)
    ensures var t := Marked(run, m, now);
      && |Conditions(t)| == 1 && Stamped(Conditions(t)[0], "lastTransitionTime", now)
      && t.Obj? && "status" in t.fields
      && (!m.Running? ==> Stamped(t.fields["status"], "completionTime", now))
      && (m.Running? && HasCompletion(run) ==>
            Get(t.fields["status"], "completionTime") == Get(run.fields["status"], "completionTime"))
  {
    var patch := StatusPatch(m, now).fields["status"];
    var was := OrElse(Get(run, "status"), Null);
    MarkedStatus(run, m, now);
    PatchedField(run, StatusPatch(m, now), "status");
    PatchedField(was, patch, "completionTime");
  }

  lemma {:induction false} CarriesTerminal(run: Json, m: Mark)
    requires Carries(run, m)
    ensures IsTerminal(run) <==> !m.Running?
  {
    var now :| Conditions(run) == [Condition(m, now)];
    var c := Condition(m, now);
    assert Conditions(run)[0] == c && IsSucceeded(c);
  }

  // ── what the documents say ───────────────────────────────────────────────

  predicate Has(c: Json, key: string, text: string) {
    c.Obj? && key in c.fields && c.fields[key] == Str(text)
  }

  predicate Lists(doc: Json, items: seq<Json>) {
    && doc.Obj? && "status" in doc.fields && doc.fields["status"].Obj?
    && "conditions" in doc.fields["status"].fields && doc.fields["status"].fields["conditions"] == Arr(items)
  }

  lemma {:induction false} ConditionsAreListed(doc: Json, items: seq<Json>)
    ensures Lists(doc, items) ==> Conditions(doc) == items
    ensures Conditions(doc) != [] ==> Lists(doc, Conditions(doc))
  {
  }

  // c is the first condition of type Succeeded.
  predicate Decides(doc: Json, c: Json) {
    var cs := Conditions(doc);
    exists i :: 0 <= i < |cs| && cs[i] == c && Has(c, "type", "Succeeded") &&
                forall j :: 0 <= j < i ==> !Has(cs[j], "type", "Succeeded")
  }

  ghost predicate Says(taskrun: Json, status: string) {
    exists c :: Decides(taskrun, c) && Has(c, "status", status)
  }

  // Its Succeeded condition is False, with this message, or the default one where it gives none.
  ghost predicate Complains(taskrun: Json, message: string) {
    exists c :: Decides(taskrun, c) && Has(c, "status", "False") &&
      (Has(c, "message", message) || (message == "TaskRun failed" && forall text :: !Has(c, "message", text)))
  }

  lemma {:induction false} DecidesIsFirst(cs: seq<Json>, c: Json, i: nat)
    requires i < |cs| && cs[i] == c && Has(c, "type", "Succeeded")
    requires forall j :: 0 <= j < i ==> !Has(cs[j], "type", "Succeeded")
    ensures FirstSucceeded(cs) == Some(c)
  {
    if i != 0 {
      assert forall j :: 0 <= j < i - 1 ==> cs[1..][j] == cs[j + 1];
      assert !Has(cs[0], "type", "Succeeded");
      DecidesIsFirst(cs[1..], c, i - 1);
    }
  }

  lemma {:induction false} FirstDecides(cs: seq<Json>) returns (i: nat)
    requires FirstSucceeded(cs).Some?
    ensures i < |cs| && Some(cs[i]) == FirstSucceeded(cs) && Has(cs[i], "type", "Succeeded")
    ensures forall j :: 0 <= j < i ==> !Has(cs[j], "type", "Succeeded")
  {
    i := 0;
    if !IsSucceeded(cs[0]) {
      i := FirstDecides(cs[1..]);
      i := i + 1;
      assert forall j :: 0 < j < i ==> cs[j] == cs[1..][j - 1];
    }
  }

  lemma {:induction false} DecidesIff(doc: Json, c: Json)
    ensures Decides(doc, c) <==> FirstSucceeded(Conditions(doc)) == Some(c)
  {
    var cs := Conditions(doc);
    if Decides(doc, c) {
      var i :| 0 <= i < |cs| && cs[i] == c && forall j :: 0 <= j < i ==> !Has(cs[j], "type", "Succeeded");
      DecidesIsFirst(cs, c, i);
    }
    if FirstSucceeded(cs) == Some(c) {
      var i := FirstDecides(cs);
      assert cs[i] == c;
    }
  }

  /** A TaskRun has passed if and only if the first condition of type Succeeded says True, and has failed with a
      message if and only if it says False with it. */
  lemma {:induction false} ReportMeans(taskrun: Json, message: string)
    ensures ReportOf(taskrun) == Passed <==> Says(taskrun, "True")
    ensures ReportOf(taskrun) == Failing(message) <==> Complains(taskrun, message)
    ensures ReportOf(taskrun).Failing? <==> Says(taskrun, "False")
  {
    forall c { DecidesIff(taskrun, c); }
    var first := FirstSucceeded(Conditions(taskrun));
    if first.Some? {
      assert Decides(taskrun, first.value);
      var text := AsStr(Get(first.value, "message"));
      assert text.Some? ==> Has(first.value, "message", text.value);
    }
    assert "True" != "False";
  }

  // The only condition of a CustomRun.
  predicate Written(run: Json, status: string, reason: string, message: string) {
    var cs := Conditions(run);
    && |cs| == 1 && Has(cs[0], "type", "Succeeded")
    && Has(cs[0], "status", status) && Has(cs[0], "reason", reason) && Has(cs[0], "message", message)
  }

  lemma {:induction false} MarksAreWritten(run: Json, m: Mark)
    requires Carries(run, m)
    ensures match m
      case Running => Written(run, "Unknown", "Running", "TaskRun is running")
      case Succeeded => Written(run, "True", "TaskRunSucceeded", "TaskRun completed successfully")
      case Failed(message) => Written(run, "False", "TaskRunFailed", message)
  {
  }

  // The status of the CustomRun is what the TaskRun says.
  ghost predicate Copies(taskrun: Json, run: Json) {
    && (Says(taskrun, "True") ==> Written(run, "True", "TaskRunSucceeded", "TaskRun completed successfully"))
    && (forall message :: Complains(taskrun, message) ==> Written(run, "False", "TaskRunFailed", message))
    && (!Says(taskrun, "True") && !Says(taskrun, "False") ==> Written(run, "Unknown", "Running", "TaskRun is running"))
  }

  lemma {:induction false} SyncedCopies(taskrun: Json, run: Json)
    requires Carries(run, MarkOf(ReportOf(taskrun)))
    ensures Copies(taskrun, run)
  {
    MarksAreWritten(run, MarkOf(ReportOf(taskrun)));
    forall message { ReportMeans(taskrun, message); }
    ReportMeans(taskrun, "");
  }

  // ── the reconciler ───────────────────────────────────────────────────────

  // Why a status is about to be patched: TaskRun synced, resolution or creation failed, just created.
  datatype Why = Synced | Broken | Created

  // Between which API calls the controller stands.
  datatype Worker =
    | Idle
    | Listing
    | Resolving
    | Creating
    | Marking(m: Mark, why: Why)

  // seen: every version of the CustomRun, any of which a stale cache may still hold.
  // foreign: some other TaskRun holds the name <name>-exec. creations, broke and copied record the run: TaskRuns
  // created, what failing resolutions and creations were reported as, the verdict first copied.
  datatype World = World(
    run: Json, seen: seq<Json>, taskrun: Option<Json>, foreign: bool, worker: Worker,
    creations: nat, broke: set<string>, copied: Option<Mark>)

  function Start(run: Json, foreign: bool): World {
    World(run, [run], None, foreign, Idle, 0, {}, None)
  }

  datatype Event =
    | Begin(version: nat)          // a reconcile starts from some cached version
    | List(fails: bool)
    | Resolve(error: Option<string>)
    | Create(error: Option<string>, applied: bool)   // an error may hide a creation that took effect
    | Patch(now: string, fails: bool)
    | Crash
    | Progress(taskrun: Json)      // Tekton updates the TaskRun

  function MarkOf(r: Report): Mark {
    match r
    case Pending => Running
    case Passed => Succeeded
    case Failing(message) => Failed(message)
  }

  predicate Enabled(w: World, ev: Event) {
    match ev
    case Begin(version) => w.worker.Idle? && version < |w.seen|
    case List(_) => w.worker.Listing?
    case Resolve(_) => w.worker.Resolving?
    case Create(_, _) => w.worker.Creating?
    case Patch(_, _) => w.worker.Marking?
    case Crash => true
    case Progress(_) => w.taskrun.Some? && ReportOf(w.taskrun.value).Pending?
  }

  function OnList(w: World, fails: bool): World {
    if fails then w.(worker := Idle)
    else if w.taskrun.Some? then w.(worker := Marking(MarkOf(ReportOf(w.taskrun.value)), Synced))
    else w.(worker := Resolving)
  }

  function Invalid(reason: string): string {
    "invalid params: " + reason
  }

  function NotCreated(reason: string): string {
    "failed to create TaskRun: " + reason
  }

  // Without an error the TaskRun was created, or the name was taken, which counts as success.
  function OnCreate(w: World, error: Option<string>, applied: bool): World {
    var free := w.taskrun.None? && !w.foreign;
    var w' := if free && (error.None? || applied)
      then w.(taskrun := Some(Obj(map[])), creations := w.creations + 1) else w;
    if error.None? then w'.(worker := Marking(Running, Created))
    else w'.(worker := Marking(Failed(NotCreated(error.value)), Broken), broke := w.broke + {NotCreated(error.value)})
  }

  function OnPatch(w: World, now: string): World
    requires w.worker.Marking?
  {
    var run := Marked(w.run, w.worker.m, now);
    w.(run := run, seen := w.seen + [run], worker := Idle,
       copied := if w.worker.why.Synced? && !w.worker.m.Running? && w.copied.None? then Some(w.worker.m) else w.copied)
  }

  function After(w: World, ev: Event): World
    requires Enabled(w, ev)
  {
    match ev
    case Begin(version) => if IsTerminal(w.seen[version]) then w else w.(worker := Listing)
    case List(fails) => OnList(w, fails)
    case Resolve(error) =>
      if error.None? then w.(worker := Creating)
      else w.(worker := Marking(Failed(Invalid(error.value)), Broken), broke := w.broke + {Invalid(error.value)})
    case Create(error, applied) => OnCreate(w, error, applied)
    case Patch(now, fails) => if fails then w.(worker := Idle) else OnPatch(w, now)
    case Crash => w.(worker := Idle)
    case Progress(taskrun) => w.(taskrun := Some(taskrun))
  }

  predicate EnabledAll(w: World, evs: seq<Event>)
    decreases |evs|
  {
    evs == [] || (Enabled(w, evs[0]) && EnabledAll(After(w, evs[0]), evs[1..]))
  }

  function AfterAll(w: World, evs: seq<Event>): World
    requires EnabledAll(w, evs)
    decreases |evs|
  {
    if evs == [] then w else AfterAll(After(w, evs[0]), evs[1..])
  }

  // ── safety ───────────────────────────────────────────────────────────────

  ghost predicate Reported(w: World, m: Mark) {
    w.taskrun.Some? && MarkOf(ReportOf(w.taskrun.value)) == m
  }

  ghost predicate MarkSound(w: World, m: Mark, why: Why) {
    match why
    case Synced => w.taskrun.Some? && (!m.Running? ==> Reported(w, m))
    case Broken => m.Failed? && m.message in w.broke && w.copied.None?
    case Created => m.Running? && (w.taskrun.Some? || w.foreign) && w.copied.None?
  }

  // The status is the first one, or one this controller wrote for a reason that still stands.
  ghost predicate RunSound(w: World, first: Json) {
    || w.run == first
    || Carries(w.run, Running)
    || (exists m :: Carries(w.run, m) && Reported(w, m))
    || (exists message :: Carries(w.run, Failed(message)) && message in w.broke)
  }

  ghost predicate CopySound(w: World) {
    w.copied.Some? ==>
      && !w.copied.value.Running? && Reported(w, w.copied.value) && Carries(w.run, w.copied.value)
      && (w.worker.Idle? || w.worker.Listing? || w.worker == Marking(w.copied.value, Synced))
  }

  ghost predicate Sound(w: World, first: Json) {
    && RunSound(w, first) && CopySound(w)
    && (w.worker.Marking? ==> MarkSound(w, w.worker.m, w.worker.why))
    && (w.worker.Resolving? || w.worker.Creating? ==> w.taskrun.None? && w.copied.None?)
    && w.creations == (if w.taskrun.Some? then 1 else 0)
    && (w.foreign ==> w.taskrun.None?)
  }

  lemma {:induction false} PatchSound(w: World, first: Json, now: string)
    requires Sound(w, first) && w.worker.Marking?
    ensures Sound(OnPatch(w, now), first)
  {
    var m := w.worker.m;
    MarkedReads(w.run, m, now);
    var t := OnPatch(w, now);
    assert Carries(t.run, m);
    if w.worker.why.Synced? && !m.Running? {
      assert Reported(t, m);
    }
  }

  lemma {:induction false} ProgressSound(w: World, first: Json, taskrun: Json)
    requires Sound(w, first) && Enabled(w, Progress(taskrun))
    ensures Sound(After(w, Progress(taskrun)), first)
  {
    assert forall m :: Reported(w, m) ==> m.Running?;
  }

  lemma {:induction false} CreateSound(w: World, first: Json, error: Option<string>, applied: bool)
    requires Sound(w, first) && w.worker.Creating?
    ensures Sound(OnCreate(w, error, applied), first)
  {
  }

  lemma {:induction false} StepSound(w: World, first: Json, ev: Event)
    requires Sound(w, first) && Enabled(w, ev)
    ensures Sound(After(w, ev), first)
  {
    match ev {
      case Patch(now, fails) => if !fails { PatchSound(w, first, now); }
      case Progress(taskrun) => ProgressSound(w, first, taskrun);
      case Create(error, applied) => CreateSound(w, first, error, applied);
      case _ =>
    }
  }

  lemma {:induction false} SoundFrom(w: World, first: Json, evs: seq<Event>)
    requires Sound(w, first) && EnabledAll(w, evs)
    ensures Sound(AfterAll(w, evs), first)
    decreases |evs|
  {
    if evs != [] {
      StepSound(w, first, evs[0]);
      SoundFrom(After(w, evs[0]), first, evs[1..]);
    }
  }

  // A resolution or creation failed and is reported by this message.
  predicate FailsAs(ev: Event, message: string) {
    match ev
    case Resolve(error) => error.Some? && message == "invalid params: " + error.value
    case Create(error, _) => error.Some? && message == "failed to create TaskRun: " + error.value
    case _ => false
  }

  predicate Fails(evs: seq<Event>, message: string)
    decreases |evs|
  {
    evs != [] && (FailsAs(evs[0], message) || Fails(evs[1..], message))
  }

  lemma {:induction false} BrokeBy(w: World, evs: seq<Event>, message: string)
    requires EnabledAll(w, evs)
    ensures message in AfterAll(w, evs).broke <==> message in w.broke || Fails(evs, message)
    decreases |evs|
  {
    if evs != [] {
      BrokeBy(After(w, evs[0]), evs[1..], message);
    }
  }

  // The TaskRun is as Tekton last put it.
  predicate Progressed(w: World, evs: seq<Event>) {
    w.taskrun.Some? && Progress(w.taskrun.value) in evs
  }

  // Why a CustomRun is True, or False with this message.
  ghost predicate Earned(w: World, evs: seq<Event>, message: string) {
    || (Written(w.run, "True", "TaskRunSucceeded", message) && Progressed(w, evs) && Says(w.taskrun.value, "True"))
    || (Written(w.run, "False", "TaskRunFailed", message) &&
          (Fails(evs, message) || (Progressed(w, evs) && Complains(w.taskrun.value, message))))
  }

  lemma {:induction false} ProgressCause(w: World, evs: seq<Event>)
    requires EnabledAll(w, evs)
    ensures var t := AfterAll(w, evs);
      t.taskrun.Some? ==> t.taskrun == w.taskrun || t.taskrun == Some(Obj(map[])) || Progress(t.taskrun.value) in evs
    decreases |evs|
  {
    if evs != [] {
      ProgressCause(After(w, evs[0]), evs[1..]);
    }
  }

  /** In every run, with crashes, failing calls and stale caches: at most one TaskRun is created; the
      CustomRun is True only if its TaskRun says True, and False only with the message of its TaskRun
      saying False or of a failed resolution or creation. */
  lemma {:induction false} VerdictsAreTrue(run: Json, foreign: bool, evs: seq<Event>)
    requires !IsTerminal(run) && EnabledAll(Start(run, foreign), evs)
    ensures var w := AfterAll(Start(run, foreign), evs);
      && w.creations <= 1 && (w.creations == 1 <==> w.taskrun.Some?)
      && (IsTerminal(w.run) ==> exists message :: Earned(w, evs, message))
  {
    SoundFrom(Start(run, foreign), run, evs);
    var w := AfterAll(Start(run, foreign), evs);
    if IsTerminal(w.run) {
      if Carries(w.run, Running) { CarriesTerminal(w.run, Running); }
      var m :| Carries(w.run, m) && (Reported(w, m) || (m.Failed? && m.message in w.broke));
      CarriesTerminal(w.run, m);
      ProgressCause(Start(run, foreign), evs);
      if m.Failed? { BrokeBy(Start(run, foreign), evs, m.message); }
      MarkEarned(w, evs, m);
    }
  }

  lemma {:induction false} MarkEarned(w: World, evs: seq<Event>, m: Mark)
    requires Carries(w.run, m) && !m.Running?
    requires w.taskrun.Some? ==> w.taskrun == Some(Obj(map[])) || Progress(w.taskrun.value) in evs
    requires Reported(w, m) || (m.Failed? && Fails(evs, m.message))
    ensures exists message :: Earned(w, evs, message)
  {
    MarksAreWritten(w.run, m);
    if m.Succeeded? {
      ReportMeans(w.taskrun.value, "");
      assert Earned(w, evs, "TaskRun completed successfully");
    } else {
      if Reported(w, m) { ReportMeans(w.taskrun.value, m.message); }
      assert Earned(w, evs, m.message);
    }
  }

  lemma {:induction false} CopiedStep(w: World, first: Json, ev: Event, m: Mark)
    requires Sound(w, first) && Enabled(w, ev) && w.copied == Some(m)
    ensures After(w, ev).copied == Some(m)
  {
  }

  /** A verdict copied from the TaskRun is never changed later, not even by reconciles that work from
      a stale CustomRun. */
  lemma {:induction false} CopiedForever(w: World, first: Json, evs: seq<Event>, m: Mark)
    requires Sound(w, first) && EnabledAll(w, evs) && w.copied == Some(m)
    ensures var t := AfterAll(w, evs);
      t.copied == Some(m) && Carries(t.run, m) && t.taskrun.Some? && Copies(t.taskrun.value, t.run)
    decreases |evs|
  {
    if evs == [] {
      SyncedCopies(w.taskrun.value, w.run);
    } else {
      CopiedStep(w, first, evs[0], m);
      StepSound(w, first, evs[0]);
      CopiedForever(After(w, evs[0]), first, evs[1..], m);
    }
  }

  // ── fresh reads ──────────────────────────────────────────────────────────

  predicate FreshAll(w: World, evs: seq<Event>)
    requires EnabledAll(w, evs)
    decreases |evs|
  {
    evs == [] || ((evs[0].Begin? ==> evs[0].version == |w.seen| - 1) && FreshAll(After(w, evs[0]), evs[1..]))
  }

  // The cache has, last, what the API server has.
  predicate Latest(w: World) {
    w.seen != [] && w.seen[|w.seen| - 1] == w.run
  }

  predicate Current(w: World) {
    && Latest(w)
    && (IsTerminal(w.run) ==> w.worker.Idle?)
    && (IsTerminal(w.run) <==> HasCompletion(w.run))
  }

  lemma {:induction false} CurrentStep(w: World, ev: Event)
    requires Current(w) && Enabled(w, ev) && (ev.Begin? ==> ev.version == |w.seen| - 1)
    ensures Current(After(w, ev))
    ensures IsTerminal(w.run) ==> After(w, ev).run == w.run
  {
    if ev.Patch? && !ev.fails {
      MarkedReads(w.run, w.worker.m, ev.now);
    }
  }

  /** With fresh reads every terminal status is final, and the completion time is there exactly when
      the status is terminal. */
  lemma {:induction false} TerminalIsFinal(w: World, evs: seq<Event>)
    requires Current(w) && EnabledAll(w, evs) && FreshAll(w, evs)
    ensures Current(AfterAll(w, evs))
    ensures IsTerminal(w.run) ==> AfterAll(w, evs).run == w.run
    decreases |evs|
  {
    if evs != [] {
      CurrentStep(w, evs[0]);
      TerminalIsFinal(After(w, evs[0]), evs[1..]);
    }
  }

  lemma {:induction false} Prepend(w: World, ev: Event, rest: seq<Event>)
    requires Enabled(w, ev) && EnabledAll(After(w, ev), rest)
    ensures EnabledAll(w, [ev] + rest) && AfterAll(w, [ev] + rest) == AfterAll(After(w, ev), rest)
    ensures FreshAll(After(w, ev), rest) && (ev.Begin? ==> ev.version == |w.seen| - 1) ==> FreshAll(w, [ev] + rest)
  {
    assert ([ev] + rest)[1..] == rest;
  }

  /** Stale reads do break it: a failed resolution, then a reconcile from the first version, and the
      CustomRun runs again with a completion time. */
  lemma {:induction false} StaleReadRevives(run: Json, reason: string, now: string) returns (evs: seq<Event>)
    requires !IsTerminal(run)
    ensures EnabledAll(Start(run, false), evs)
    ensures var w := AfterAll(Start(run, false), evs); !IsTerminal(w.run) && HasCompletion(w.run) && w.taskrun.Some?
  {
    var w0 := Start(run, false);
    var w1 := After(w0, Begin(0));
    var w2 := After(w1, List(false));
    var w3 := After(w2, Resolve(Some(reason)));
    var w4 := After(w3, Patch(now, false));
    MarkedReads(run, Failed(Invalid(reason)), now);
    evs := Revived(w4, now);
    Prepend(w3, Patch(now, false), evs);
    evs := [Patch(now, false)] + evs;
    Prepend(w2, Resolve(Some(reason)), evs);
    evs := [Resolve(Some(reason))] + evs;
    Prepend(w1, List(false), evs);
    evs := [List(false)] + evs;
    Prepend(w0, Begin(0), evs);
    evs := [Begin(0)] + evs;
  }

  lemma {:induction false} Revived(w: World, now: string) returns (evs: seq<Event>)
    requires w.worker.Idle? && w.taskrun.None? && !w.foreign && w.seen != [] && !IsTerminal(w.seen[0])
    ensures EnabledAll(w, evs)
    ensures var t := AfterAll(w, evs);
      !IsTerminal(t.run) && (HasCompletion(t.run) <==> HasCompletion(w.run)) && t.taskrun.Some?
  {
    var w1 := After(w, Begin(0));
    var w2 := After(w1, List(false));
    var w3 := After(w2, Resolve(None));
    var w4 := After(w3, Create(None, true));
    MarkedReads(w.run, Running, now);
    evs := [Patch(now, false)] + [];
    Prepend(w4, Patch(now, false), []);
    Prepend(w3, Create(None, true), evs);
    evs := [Create(None, true)] + evs;
    Prepend(w2, Resolve(None), evs);
    evs := [Resolve(None)] + evs;
    Prepend(w1, List(false), evs);
    evs := [List(false)] + evs;
    Prepend(w, Begin(0), evs);
    evs := [Begin(0)] + evs;
  }

  // ── recovery and progress ────────────────────────────────────────────────

  // 3: no TaskRun. 2: it runs. 1: it finished, unsynced. 0: the CustomRun is terminal.
  function Stage(w: World): nat {
    if IsTerminal(w.run) then 0
    else if w.taskrun.None? then 3
    else if ReportOf(w.taskrun.value).Pending? then 2
    else 1
  }

  /** With fresh reads no event ever moves a CustomRun back. */
  lemma {:induction false} StageNeverRises(w: World, ev: Event)
    requires Current(w) && Enabled(w, ev) && (ev.Begin? ==> ev.version == |w.seen| - 1)
    ensures Stage(After(w, ev)) <= Stage(w)
  {
    if ev.Patch? && !ev.fails {
      MarkedReads(w.run, w.worker.m, ev.now);
    }
  }

  // One reconcile without errors, from the current version.
  function Round(w: World, error: Option<string>, now: string): seq<Event>
    requires w.seen != []
  {
    [Begin(|w.seen| - 1), List(false)] +
    (if w.taskrun.Some? then [Patch(now, false)]
     else if error.Some? then [Resolve(error), Patch(now, false)]
     else [Resolve(None), Create(None, true), Patch(now, false)])
  }

  lemma {:induction false} SyncReaches(w: World, now: string)
    requires Latest(w) && w.worker.Idle? && !IsTerminal(w.run) && w.taskrun.Some?
    ensures EnabledAll(w, Round(w, None, now))
    ensures AfterAll(w, Round(w, None, now)) == OnPatch(w.(worker := Marking(MarkOf(ReportOf(w.taskrun.value)), Synced)), now)
  {
    var w1 := After(w, Begin(|w.seen| - 1));
    var w2 := After(w1, List(false));
    Prepend(w2, Patch(now, false), []);
    Prepend(w1, List(false), [Patch(now, false)] + []);
    Prepend(w, Begin(|w.seen| - 1), [List(false)] + ([Patch(now, false)] + []));
    assert Round(w, None, now) == [Begin(|w.seen| - 1)] + ([List(false)] + ([Patch(now, false)] + []));
  }

  /** One reconcile repairs any crash after the creation: it finds the TaskRun again by its label, creates
      nothing, and writes what the TaskRun says, so a finished TaskRun makes the CustomRun terminal. */
  lemma {:induction false} SyncRound(w: World, now: string)
    requires Latest(w) && w.worker.Idle? && !IsTerminal(w.run) && w.taskrun.Some?
    ensures EnabledAll(w, Round(w, None, now))
    ensures var t := AfterAll(w, Round(w, None, now));
      && Copies(w.taskrun.value, t.run) && Carries(t.run, MarkOf(ReportOf(w.taskrun.value)))
      && t.taskrun == w.taskrun && t.creations == w.creations && t.worker.Idle?
      && Stage(t) == if Stage(w) == 1 then 0 else 2
  {
    SyncReaches(w, now);
    MarkedReads(w.run, MarkOf(ReportOf(w.taskrun.value)), now);
    SyncedCopies(w.taskrun.value, Marked(w.run, MarkOf(ReportOf(w.taskrun.value)), now));
  }

  lemma {:induction false} UnresolvedRound(w: World, reason: string, now: string)
    requires Latest(w) && w.worker.Idle? && !IsTerminal(w.run) && w.taskrun.None?
    ensures EnabledAll(w, Round(w, Some(reason), now))
    ensures var t := AfterAll(w, Round(w, Some(reason), now));
      t.worker.Idle? && Stage(t) == 0 && Carries(t.run, Failed(Invalid(reason)))
  {
    var m := Failed(Invalid(reason));
    var w1 := After(w, Begin(|w.seen| - 1));
    var w2 := After(w1, List(false));
    var w3 := After(w2, Resolve(Some(reason)));
    MarkedReads(w.run, m, now);
    Prepend(w3, Patch(now, false), []);
    var tail := [Patch(now, false)] + [];
    Prepend(w2, Resolve(Some(reason)), tail);
    tail := [Resolve(Some(reason))] + tail;
    Prepend(w1, List(false), tail);
    tail := [List(false)] + tail;
    Prepend(w, Begin(|w.seen| - 1), tail);
    assert Round(w, Some(reason), now) == [Begin(|w.seen| - 1)] + tail;
  }

  lemma {:induction false} CreatingReaches(w: World, now: string)
    requires Latest(w) && w.worker.Idle? && !IsTerminal(w.run) && w.taskrun.None?
    ensures EnabledAll(w, Round(w, None, now))
    ensures AfterAll(w, Round(w, None, now)) == OnPatch(OnCreate(w.(worker := Creating), None, true), now)
  {
    var w1 := After(w, Begin(|w.seen| - 1));
    var w2 := After(w1, List(false));
    var w3 := After(w2, Resolve(None));
    var w4 := After(w3, Create(None, true));
    Prepend(w4, Patch(now, false), []);
    var tail := [Patch(now, false)] + [];
    Prepend(w3, Create(None, true), tail);
    tail := [Create(None, true)] + tail;
    Prepend(w2, Resolve(None), tail);
    tail := [Resolve(None)] + tail;
    Prepend(w1, List(false), tail);
    tail := [List(false)] + tail;
    Prepend(w, Begin(|w.seen| - 1), tail);
    assert Round(w, None, now) == [Begin(|w.seen| - 1)] + tail;
  }

  lemma {:induction false} CreatingRound(w: World, now: string)
    requires Latest(w) && w.worker.Idle? && !IsTerminal(w.run) && w.taskrun.None?
    ensures EnabledAll(w, Round(w, None, now))
    ensures var t := AfterAll(w, Round(w, None, now));
      && t.worker.Idle? && Carries(t.run, Running) && !IsTerminal(t.run)
      && (t.taskrun.Some? <==> !w.foreign) && Stage(t) == (if w.foreign then 3 else 2)
  {
    CreatingReaches(w, now);
    MarkedReads(w.run, Running, now);
  }

  /** Before the creation, one reconcile moves a CustomRun on exactly when the spec does not resolve or
      no foreign TaskRun holds its name; else it only claims to be running. */
  lemma {:induction false} FirstRound(w: World, error: Option<string>, now: string)
    requires Latest(w) && w.worker.Idle? && !IsTerminal(w.run) && w.taskrun.None?
    ensures EnabledAll(w, Round(w, error, now))
    ensures var t := AfterAll(w, Round(w, error, now));
      && (Stage(t) < Stage(w) <==> error.Some? || !w.foreign)
      && (error.None? ==> Carries(t.run, Running) && (t.taskrun.Some? <==> !w.foreign))
      && (if error.Some? then Written(t.run, "False", "TaskRunFailed", "invalid params: " + error.value)
          else Written(t.run, "Unknown", "Running", "TaskRun is running"))
  {
    if error.Some? {
      UnresolvedRound(w, error.value, now);
      MarksAreWritten(AfterAll(w, Round(w, error, now)).run, Failed(Invalid(error.value)));
    } else {
      CreatingRound(w, now);
      MarksAreWritten(AfterAll(w, Round(w, error, now)).run, Running);
    }
  }

  /** While a foreign TaskRun holds the name, the CustomRun is never True, and becomes terminal at all only
      when resolving the spec or creating the TaskRun fails; without such a failure it stays running for ever. */
  lemma {:induction false} ForeignHolder(run: Json, evs: seq<Event>)
    requires !IsTerminal(run) && EnabledAll(Start(run, true), evs)
    ensures var w := AfterAll(Start(run, true), evs);
      && w.taskrun.None? && (forall reason, message :: !Written(w.run, "True", reason, message))
      && (IsTerminal(w.run) ==> exists message :: Written(w.run, "False", "TaskRunFailed", message) && Fails(evs, message))
  {
    SoundFrom(Start(run, true), run, evs);
    ForeignStays(Start(run, true), evs);
    VerdictsAreTrue(run, true, evs);
    var w := AfterAll(Start(run, true), evs);
    if reason, message :| Written(w.run, "True", reason, message) {
      assert IsSucceeded(Conditions(w.run)[0]);
    }
    assert "True" != "Unknown" && "True" != "False";
  }

  lemma {:induction false} ForeignStays(w: World, evs: seq<Event>)
    requires EnabledAll(w, evs)
    ensures AfterAll(w, evs).foreign == w.foreign
    decreases |evs|
  {
    if evs != [] {
      ForeignStays(After(w, evs[0]), evs[1..]);
    }
  }
}
