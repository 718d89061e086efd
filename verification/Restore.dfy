/** src/bin/restic-snapshot-controller/main.rs and src/resticrestore.rs: restoring a snapshot into a
    volume claim, with restarts between any two API calls. */
module Restore {
  import opened Prelude

  const WAITING: string := "WaitingForScaleDown"
  const RUNNING: string := "Running"
  const SUCCEEDED: string := "Succeeded"
  const FAILED: string := "Failed"

  predicate Terminal(phase: string) {
    phase == SUCCEEDED || phase == FAILED
  }

  // ── what is looked at ────────────────────────────────────────────────────

  datatype Pvc = Pvc(modes: Option<seq<string>>, node: Option<string>)
  datatype Pod = Pod(phase: Option<string>, claims: seq<string>)

  predicate IsRwo(pvc: Pvc) {
    pvc.modes.Some? && "ReadWriteOnce" in pvc.modes.value
  }

  // A pod that has not finished and mounts the claim.
  predicate Attached(pod: Pod, claim: string) {
    !(pod.phase.Some? && (pod.phase.value == "Succeeded" || pod.phase.value == "Failed")) && claim in pod.claims
  }

  predicate Free(pods: seq<Pod>, claim: string) {
    forall i :: 0 <= i < |pods| ==> !Attached(pods[i], claim)
  }

  // The pod mounts the claim and is neither Succeeded nor Failed.
  predicate Holds(pod: Pod, claim: string) {
    claim in pod.claims && pod.phase != Some("Succeeded") && pod.phase != Some("Failed")
  }

  method PodAttachedToPvc(pods: seq<Pod>, claim: string) returns (attached: bool)
    ensures attached <==> !Free(pods, claim)
    ensures attached <==> exists pod :: pod in pods && Holds(pod, claim)
  {
    for i := 0 to |pods|
      invariant forall j :: 0 <= j < i ==> !Attached(pods[j], claim)
    {
      var phase := pods[i].phase;
      if phase.Some? && (phase.value == "Succeeded" || phase.value == "Failed") { continue; }
      if claim in pods[i].claims {
        assert Attached(pods[i], claim);
        assert pods[i] in pods && Holds(pods[i], claim);
        return true;
      }
    }
    return false;
  }

  lemma {:induction false} FreeIff(pods: seq<Pod>, claim: string)
    ensures Free(pods, claim) <==> forall pod :: pod in pods ==> !Holds(pod, claim)
  {
    if pod :| pod in pods && Holds(pod, claim) {
      var i :| 0 <= i < |pods| && pods[i] == pod;
      assert Attached(pods[i], claim);
    } else {
      assert forall i :: 0 <= i < |pods| ==> pods[i] in pods && !Holds(pods[i], claim);
    }
  }

  // One look at the Job: its counters, a failing call, and whether the half hour is over.
  datatype Poll = Poll(counters: Result<(int, int), string>, overdue: bool)

  predicate Undecided(p: Poll) {
    p.counters.Ok? && p.counters.value.0 <= 0 && p.counters.value.1 <= 0
  }

  // What a look decides: an error is one at once, success counts before failure, and the deadline
  // only matters while the Job says nothing.
  predicate Decides(p: Poll, r: Result<bool, string>) {
    match r
    case Ok(ok) => p.counters.Ok? && (if ok then p.counters.value.0 > 0 else p.counters.value.0 <= 0 && p.counters.value.1 > 0)
    case Err(e) => if p.counters.Err? then e == p.counters.error else Undecided(p) && p.overdue
  }

  /** wait_for_job after these looks; None while it goes on waiting. */
  method WaitForJob(polls: seq<Poll>, name: string) returns (r: Option<Result<bool, string>>)
    ensures r.None? <==> forall i :: 0 <= i < |polls| ==> Undecided(polls[i]) && !polls[i].overdue
    ensures r.Some? ==> exists i :: 0 <= i < |polls| && Decides(polls[i], r.value) &&
                                    forall j :: 0 <= j < i ==> Undecided(polls[j]) && !polls[j].overdue
    ensures r == Some(Ok(true)) ==> exists p :: p in polls && p.counters.Ok? && p.counters.value.0 > 0
    ensures r == Some(Ok(false)) ==> exists p :: p in polls && p.counters.Ok? && p.counters.value.0 <= 0 < p.counters.value.1
    ensures r.Some? && r.value.Err? ==> exists p :: p in polls && (p.counters == Err(r.value.error) || p.overdue)
  {
    for i := 0 to |polls|
      invariant forall j :: 0 <= j < i ==> Undecided(polls[j]) && !polls[j].overdue
    {
      var c := polls[i].counters;
      if c.Err? {
        r := Some(Err(c.error));
      } else if c.value.0 > 0 {
        r := Some(Ok(true));
      } else if c.value.1 > 0 {
        r := Some(Ok(false));
      } else if polls[i].overdue {
        r := Some(Err("timed out waiting for job " + name));
      } else {
        continue;
      }
      assert Decides(polls[i], r.value) && polls[i] in polls;
      return;
    }
    return None;
  }

  // ── the reconciler ───────────────────────────────────────────────────────

  // What a reconcile had seen when it created a Job, and what the Job reported, if anything.
  datatype Job = Job(pvc: Pvc, pods: seq<Pod>, node: Option<string>, report: Option<bool>)

  datatype Worker =
    | Idle
    | Fetching                                   // the claim
    | Listing(pvc: Pvc)                          // the pods
    | Yielding                                   // patching WaitingForScaleDown
    | Claiming(pvc: Pvc, pods: seq<Pod>)         // patching Running
    | Preparing(job: Job)                        // fetching credentials
    | Dispatching(job: Job)
    | Watching(k: nat)
    | Ending(phase: string)

  // seen: every phase so far, any of which a stale cache may still hold.
  datatype World = World(
    claim: string, phase: string, completed: bool, seen: seq<string>, worker: Worker, jobs: seq<Job>)

  function Start(claim: string): World {
    World(claim, "", false, [""], Idle, [])
  }

  datatype Event =
    | Begin(version: nat)
    | Fetch(pvc: Option<Result<Pvc, ()>>)        // None: not found; Err: any other error
    | List(pods: Option<seq<Pod>>)
    | Patch(fails: bool)
    | Prepare(fails: bool)
    | Dispatch(created: bool, fails: bool)       // an error may hide a creation
    | Watched(report: Option<bool>)              // None: an error or the deadline
    | Reports(k: nat, ok: bool)                  // the Job finishes
    | Crash

  predicate Enabled(w: World, ev: Event) {
    match ev
    case Begin(version) => w.worker.Idle? && version < |w.seen|
    case Fetch(_) => w.worker.Fetching?
    case List(_) => w.worker.Listing?
    case Patch(_) => w.worker.Yielding? || w.worker.Claiming? || w.worker.Ending?
    case Prepare(_) => w.worker.Preparing?
    case Dispatch(created, fails) => w.worker.Dispatching? && (created || fails)
    case Watched(report) =>
      w.worker.Watching? && w.worker.k < |w.jobs| && (report.Some? ==> w.jobs[w.worker.k].report == report)
    case Reports(k, _) => k < |w.jobs| && w.jobs[k].report.None?
    case Crash => true
  }

  function WithPhase(w: World, phase: string, worker: Worker): World {
    w.(phase := phase, completed := w.completed || Terminal(phase), seen := w.seen + [phase], worker := worker)
  }

  // The claim is free: a single-node claim needs its node.
  function Placed(pvc: Pvc, pods: seq<Pod>): Worker {
    if IsRwo(pvc) && pvc.node.None? then Ending(FAILED)
    else Preparing(Job(pvc, pods, if IsRwo(pvc) then pvc.node else None, None))
  }

  function After(w: World, ev: Event): World
    requires Enabled(w, ev)
  {
    match ev
    case Begin(version) => if Terminal(w.seen[version]) then w else w.(worker := Fetching)
    case Fetch(pvc) =>
      w.(worker := if pvc.None? then Ending(FAILED) else if pvc.value.Err? then Idle else Listing(pvc.value.value))
    case List(pods) =>
      w.(worker := if pods.None? then Idle
                   else if Free(pods.value, w.claim) then Claiming(w.worker.pvc, pods.value) else Yielding)
    case Patch(fails) =>
      if fails then w.(worker := Idle)
      else if w.worker.Yielding? then WithPhase(w, WAITING, Idle)
      else if w.worker.Claiming? then WithPhase(w, RUNNING, Placed(w.worker.pvc, w.worker.pods))
      else WithPhase(w, w.worker.phase, Idle)
    case Prepare(fails) => w.(worker := if fails then Idle else Dispatching(w.worker.job))
    case Dispatch(created, fails) =>
      var jobs := if created then w.jobs + [w.worker.job] else w.jobs;
      w.(jobs := jobs, worker := if fails then Ending(FAILED) else Watching(|w.jobs|))
    case Watched(report) => w.(worker := Ending(if report == Some(true) then SUCCEEDED else FAILED))
    case Reports(k, ok) => w.(jobs := w.jobs[k := w.jobs[k].(report := Some(ok))])
    case Crash => w.(worker := Idle)
  }

  predicate EnabledAll(w: World, evs: seq<Event>)
    decreases |evs|
  {
    evs == [] || (Enabled(w, evs[0]) && EnabledAll(After(w, evs[0]), evs[1..]))
  }

  function AfterAll(w: World, evs: seq<Event>): World
    requires EnabledAll(w, evs)
    decreases |evs|
  {
    if evs == [] then w else AfterAll(After(w, evs[0]), evs[1..])
  }

  predicate FreshAll(w: World, evs: seq<Event>)
    requires EnabledAll(w, evs)
    decreases |evs|
  {
    evs == [] || ((evs[0].Begin? ==> evs[0].version == |w.seen| - 1) && FreshAll(After(w, evs[0]), evs[1..]))
  }

  // ── safety ───────────────────────────────────────────────────────────────

  // Created on a free claim, and on its node where there must be one.
  predicate Justified(job: Job, claim: string) {
    Free(job.pods, claim) && (if IsRwo(job.pvc) then job.node.Some? && job.node == job.pvc.node else job.node.None?)
  }

  predicate SomeJobSucceeded(w: World) {
    exists k :: 0 <= k < |w.jobs| && w.jobs[k].report == Some(true)
  }

  predicate WorkerSafe(w: World) {
    match w.worker
    case Claiming(_, pods) => Free(pods, w.claim)
    case Preparing(job) => Justified(job, w.claim) && job.report.None?
    case Dispatching(job) => Justified(job, w.claim) && job.report.None?
    case Ending(phase) => Terminal(phase) && (phase == SUCCEEDED ==> SomeJobSucceeded(w))
    case _ => true
  }

  // Holds with stale reads as well.
  predicate Safe(w: World) {
    && w.phase in ["", WAITING, RUNNING, SUCCEEDED, FAILED]
    && (Terminal(w.phase) ==> w.completed)
    && (w.phase == SUCCEEDED ==> SomeJobSucceeded(w))
    && WorkerSafe(w)
    && (forall k :: 0 <= k < |w.jobs| ==> Justified(w.jobs[k], w.claim))
  }

  lemma {:induction false} JobsGrow(w: World, ev: Event)
    requires Enabled(w, ev) && SomeJobSucceeded(w)
    ensures SomeJobSucceeded(After(w, ev))
  {
    var k :| 0 <= k < |w.jobs| && w.jobs[k].report == Some(true);
    assert After(w, ev).jobs[k].report == Some(true);
  }

  lemma {:induction false} StepSafe(w: World, ev: Event)
    requires Safe(w) && Enabled(w, ev)
    ensures Safe(After(w, ev)) && After(w, ev).claim == w.claim
  {
    if SomeJobSucceeded(w) {
      JobsGrow(w, ev);
    }
    if ev.Watched? && ev.report == Some(true) {
      assert After(w, ev).jobs[w.worker.k].report == Some(true);
    }
  }

  /** In every run, with restarts anywhere and even with stale reads: every Job was created by a reconcile that
      had just seen an existing claim, no live pod on it and, for a ReadWriteOnce claim, its node; the restore is
      Succeeded only if a Job created for it reported success. */
  lemma {:induction false} AlwaysSafe(w: World, evs: seq<Event>)
    requires Safe(w) && EnabledAll(w, evs)
    ensures Safe(AfterAll(w, evs))
    decreases |evs|
  {
    if evs != [] {
      StepSafe(w, evs[0]);
      AlwaysSafe(After(w, evs[0]), evs[1..]);
    }
  }

  // ── what justified a Job ─────────────────────────────────────────────────

  // The reconciler goes by this claim, or a Job was created by it.
  predicate GoesByPvc(w: World, pvc: Pvc) {
    || (exists k :: 0 <= k < |w.jobs| && w.jobs[k].pvc == pvc)
    || match w.worker
       case Listing(known) => known == pvc
       case Claiming(known, _) => known == pvc
       case Preparing(job) => job.pvc == pvc
       case Dispatching(job) => job.pvc == pvc
       case _ => false
  }

  predicate GoesByPods(w: World, pods: seq<Pod>) {
    || (exists k :: 0 <= k < |w.jobs| && w.jobs[k].pods == pods)
    || match w.worker
       case Claiming(_, known) => known == pods
       case Preparing(job) => job.pods == pods
       case Dispatching(job) => job.pods == pods
       case _ => false
  }

  predicate Told(w: World, k: nat, ok: bool) {
    k < |w.jobs| && w.jobs[k].report == Some(ok)
  }

  lemma {:induction false} SeenStep(w: World, ev: Event, pvc: Pvc, pods: seq<Pod>)
    requires Enabled(w, ev)
    ensures GoesByPvc(After(w, ev), pvc) ==> GoesByPvc(w, pvc) || ev == Fetch(Some(Ok(pvc)))
    ensures GoesByPods(After(w, ev), pods) ==> GoesByPods(w, pods) || ev == List(Some(pods))
  {
    var t := After(w, ev);
    forall k | 0 <= k < |t.jobs|
      ensures t.jobs[k].pvc == pvc ==> GoesByPvc(w, pvc)
      ensures t.jobs[k].pods == pods ==> GoesByPods(w, pods)
    {
      if k < |w.jobs| {
        assert t.jobs[k].pvc == w.jobs[k].pvc && t.jobs[k].pods == w.jobs[k].pods;
      }
    }
  }

  lemma {:induction false} ToldStep(w: World, ev: Event, k: nat, ok: bool)
    requires Enabled(w, ev) && Told(After(w, ev), k, ok) && (w.worker.Preparing? || w.worker.Dispatching? ==> w.worker.job.report.None?)
    ensures Told(w, k, ok) || ev == Reports(k, ok)
  {
  }

  lemma {:induction false} SeenSince(w: World, evs: seq<Event>, pvc: Pvc, pods: seq<Pod>)
    requires EnabledAll(w, evs)
    ensures GoesByPvc(AfterAll(w, evs), pvc) ==> GoesByPvc(w, pvc) || Fetch(Some(Ok(pvc))) in evs
    ensures GoesByPods(AfterAll(w, evs), pods) ==> GoesByPods(w, pods) || List(Some(pods)) in evs
    decreases |evs|
  {
    if evs != [] {
      SeenStep(w, evs[0], pvc, pods);
      SeenSince(After(w, evs[0]), evs[1..], pvc, pods);
    }
  }

  lemma {:induction false} ToldSince(w: World, evs: seq<Event>, k: nat, ok: bool)
    requires Safe(w) && EnabledAll(w, evs) && Told(AfterAll(w, evs), k, ok)
    ensures Told(w, k, ok) || Reports(k, ok) in evs
    decreases |evs|
  {
    if evs != [] {
      StepSafe(w, evs[0]);
      ToldSince(After(w, evs[0]), evs[1..], k, ok);
      if Told(After(w, evs[0]), k, ok) { ToldStep(w, evs[0], k, ok); }
    }
  }

  predicate SingleNode(pvc: Pvc) {
    pvc.modes.Some? && exists i :: 0 <= i < |pvc.modes.value| && pvc.modes.value[i] == "ReadWriteOnce"
  }

  /** From the start: every Job was created for a claim that was found and on a list of pods none of which holds it, on
      the node of the claim if that is for one node only and on none otherwise; Succeeded means that a Job has reported
      success, and a restore that is Succeeded or Failed has its completion time. */
  lemma {:induction false} JobsAreJustified(claim: string, evs: seq<Event>)
    requires EnabledAll(Start(claim), evs)
    ensures var w := AfterAll(Start(claim), evs);
      && (forall job :: job in w.jobs ==>
            && Fetch(Some(Ok(job.pvc))) in evs && List(Some(job.pods)) in evs
            && (forall pod :: pod in job.pods ==> !Holds(pod, claim))
            && (if SingleNode(job.pvc) then job.node.Some? && job.node == job.pvc.node else job.node.None?))
      && (w.phase == "Succeeded" ==> exists k :: Reports(k, true) in evs)
      && w.phase in ["", "WaitingForScaleDown", "Running", "Succeeded", "Failed"]
      && (w.phase == "Succeeded" || w.phase == "Failed" ==> w.completed)
      && w.claim == claim
  {
    var w := AfterAll(Start(claim), evs);
    StartSafe(claim);
    AlwaysSafe(Start(claim), evs);
    ClaimStays(Start(claim), evs);
    forall job | job in w.jobs
      ensures Fetch(Some(Ok(job.pvc))) in evs && List(Some(job.pods)) in evs && Justified(job, claim)
      ensures IsRwo(job.pvc) <==> SingleNode(job.pvc)
    {
      var k :| 0 <= k < |w.jobs| && w.jobs[k] == job;
      assert GoesByPvc(w, job.pvc) && GoesByPods(w, job.pods);
      SeenSince(Start(claim), evs, job.pvc, job.pods);
    }
    forall job, pod | job in w.jobs && pod in job.pods ensures !Holds(pod, claim) {
      var i :| 0 <= i < |job.pods| && job.pods[i] == pod;
      assert Justified(job, claim) && !Attached(job.pods[i], claim);
    }
    if w.phase == "Succeeded" {
      var k :| 0 <= k < |w.jobs| && w.jobs[k].report == Some(true);
      ToldSince(Start(claim), evs, k, true);
    }
  }

  lemma {:induction false} ClaimStays(w: World, evs: seq<Event>)
    requires Safe(w) && EnabledAll(w, evs)
    ensures AfterAll(w, evs).claim == w.claim
    decreases |evs|
  {
    if evs != [] {
      StepSafe(w, evs[0]);
      ClaimStays(After(w, evs[0]), evs[1..]);
    }
  }

  lemma {:induction false} StartSafe(claim: string)
    ensures Safe(Start(claim)) && Current(Start(claim))
  {
  }

  // The cache has, last, what the API server has.
  predicate Latest(w: World) {
    w.seen != [] && w.seen[|w.seen| - 1] == w.phase
  }

  predicate Current(w: World) {
    && Latest(w)
    && (Terminal(w.phase) ==> w.worker.Idle?)
    && (Terminal(w.phase) <==> w.completed)
  }

  lemma {:induction false} CurrentStep(w: World, ev: Event)
    requires Safe(w) && Current(w) && Enabled(w, ev) && (ev.Begin? ==> ev.version == |w.seen| - 1)
    ensures Current(After(w, ev))
    ensures Terminal(w.phase) ==> After(w, ev).phase == w.phase && |After(w, ev).jobs| == |w.jobs|
  {
  }

  /** With fresh reads Succeeded and Failed are final, no Job is created after them, and the completion time is
      there exactly then. */
  lemma {:induction false} TerminalIsFinal(w: World, evs: seq<Event>)
    requires Safe(w) && Current(w) && EnabledAll(w, evs) && FreshAll(w, evs)
    ensures Current(AfterAll(w, evs))
    ensures Terminal(w.phase) ==> AfterAll(w, evs).phase == w.phase && |AfterAll(w, evs).jobs| == |w.jobs|
    decreases |evs|
  {
    if evs != [] {
      StepSafe(w, evs[0]);
      CurrentStep(w, evs[0]);
      TerminalIsFinal(After(w, evs[0]), evs[1..]);
    }
  }

  lemma {:induction false} Prepend(w: World, ev: Event, rest: seq<Event>)
    requires Enabled(w, ev) && EnabledAll(After(w, ev), rest)
    ensures EnabledAll(w, [ev] + rest) && AfterAll(w, [ev] + rest) == AfterAll(After(w, ev), rest)
  {
    assert ([ev] + rest)[1..] == rest;
  }

  /** Without fresh reads they are not: a reconcile that still sees an earlier phase restores once more. */
  lemma {:induction false} StaleReadRestoresAgain(w: World, version: nat, pvc: Pvc) returns (evs: seq<Event>)
    requires w.worker.Idle? && version < |w.seen| && !Terminal(w.seen[version]) && !IsRwo(pvc)
    ensures EnabledAll(w, evs)
    ensures AfterAll(w, evs).phase == RUNNING && |AfterAll(w, evs).jobs| == |w.jobs| + 1
    ensures AfterAll(w, evs).completed == w.completed
  {
    var w1 := After(w, Begin(version));
    var w2 := After(w1, Fetch(Some(Ok(pvc))));
    var w3 := After(w2, List(Some([])));
    var w4 := After(w3, Patch(false));
    var w5 := After(w4, Prepare(false));
    evs := [Dispatch(true, false)] + [];
    Prepend(w5, Dispatch(true, false), []);
    Prepend(w4, Prepare(false), evs);
    evs := [Prepare(false)] + evs;
    Prepend(w3, Patch(false), evs);
    evs := [Patch(false)] + evs;
    Prepend(w2, List(Some([])), evs);
    evs := [List(Some([]))] + evs;
    Prepend(w1, Fetch(Some(Ok(pvc))), evs);
    evs := [Fetch(Some(Ok(pvc)))] + evs;
    Prepend(w, Begin(version), evs);
    evs := [Begin(version)] + evs;
  }

  // ── progress ─────────────────────────────────────────────────────────────

  // A restart or an error loses nothing: a reconcile from the start of a restore that is not
  // terminal, without further errors.
  function Round(w: World, pvc: Option<Pvc>, pods: seq<Pod>, ok: bool): seq<Event>
    requires w.seen != []
  {
    var first := [Begin(|w.seen| - 1), Fetch(if pvc.None? then None else Some(Ok(pvc.value)))];
    if pvc.None? then first + [Patch(false)]
    else if !Free(pods, w.claim) then first + [List(Some(pods)), Patch(false)]
    else if Placed(pvc.value, pods).Ending? then first + [List(Some(pods)), Patch(false), Patch(false)]
    else first + [List(Some(pods)), Patch(false)] + JobCalls(|w.jobs|, ok)
  }

  function JobCalls(k: nat, ok: bool): seq<Event> {
    [Prepare(false), Dispatch(true, false), Reports(k, ok), Watched(Some(ok)), Patch(false)]
  }

  function Outcome(w: World, pvc: Option<Pvc>, pods: seq<Pod>, ok: bool): string {
    if pvc.None? then FAILED
    else if !Free(pods, w.claim) then WAITING
    else if IsRwo(pvc.value) && pvc.value.node.None? then FAILED
    else if ok then SUCCEEDED else FAILED
  }

  lemma {:induction false} ShortRound(w: World, pvc: Option<Pvc>, pods: seq<Pod>, ok: bool)
    requires Latest(w) && w.worker.Idle? && !Terminal(w.phase)
    requires pvc.None? || !Free(pods, w.claim) || Placed(pvc.value, pods).Ending?
    ensures EnabledAll(w, Round(w, pvc, pods, ok))
    ensures var t := AfterAll(w, Round(w, pvc, pods, ok)); t.worker.Idle? && t.phase == Outcome(w, pvc, pods, ok)
  {
    var fetch := Fetch(if pvc.None? then None else Some(Ok(pvc.value)));
    var w1 := After(w, Begin(|w.seen| - 1));
    var w2 := After(w1, fetch);
    var tail: seq<Event>;
    if pvc.None? {
      tail := [Patch(false)] + [];
      Prepend(w2, Patch(false), []);
    } else {
      var w3 := After(w2, List(Some(pods)));
      tail := [];
      if Free(pods, w.claim) {
        var w4 := After(w3, Patch(false));
        Prepend(w4, Patch(false), []);
        tail := [Patch(false)] + [];
      }
      Prepend(w3, Patch(false), tail);
      tail := [Patch(false)] + tail;
      Prepend(w2, List(Some(pods)), tail);
      tail := [List(Some(pods))] + tail;
    }
    Prepend(w1, fetch, tail);
    tail := [fetch] + tail;
    Prepend(w, Begin(|w.seen| - 1), tail);
    assert Round(w, pvc, pods, ok) == [Begin(|w.seen| - 1)] + tail;
  }

  lemma {:induction false} JobRound(w: World, job: Job, ok: bool)
    requires w.worker == Preparing(job) && job.report.None?
    ensures var evs := JobCalls(|w.jobs|, ok);
      && EnabledAll(w, evs)
      && AfterAll(w, evs).worker.Idle? && AfterAll(w, evs).phase == if ok then SUCCEEDED else FAILED
  {
    var w1 := After(w, Prepare(false));
    var w2 := After(w1, Dispatch(true, false));
    var w3 := After(w2, Reports(|w.jobs|, ok));
    var w4 := After(w3, Watched(Some(ok)));
    Prepend(w4, Patch(false), []);
    var tail := [Patch(false)] + [];
    Prepend(w3, Watched(Some(ok)), tail);
    tail := [Watched(Some(ok))] + tail;
    Prepend(w2, Reports(|w.jobs|, ok), tail);
    tail := [Reports(|w.jobs|, ok)] + tail;
    Prepend(w1, Dispatch(true, false), tail);
    tail := [Dispatch(true, false)] + tail;
    Prepend(w, Prepare(false), tail);
    assert [Prepare(false)] + tail == JobCalls(|w.jobs|, ok);
  }

  /** From whatever a crash or an error left behind, one reconcile without errors ends the restore as the
      claim, its pods and the Job decide; it waits only while a live pod holds the claim. */
  lemma {:induction false} RoundDecides(w: World, pvc: Option<Pvc>, pods: seq<Pod>, ok: bool)
    requires Latest(w) && w.worker.Idle? && !Terminal(w.phase)
    ensures EnabledAll(w, Round(w, pvc, pods, ok))
    ensures var t := AfterAll(w, Round(w, pvc, pods, ok));
      && t.worker.Idle? && t.phase == Outcome(w, pvc, pods, ok)
      && t.phase in ["WaitingForScaleDown", "Succeeded", "Failed"]
      && (t.phase == "WaitingForScaleDown" <==> pvc.Some? && exists pod :: pod in pods && Holds(pod, w.claim))
      && (t.phase == "Succeeded" <==>
            && pvc.Some? && (forall pod :: pod in pods ==> !Holds(pod, w.claim))
            && (SingleNode(pvc.value) ==> pvc.value.node.Some?) && ok)
  {
    FreeIff(pods, w.claim);
    if pvc.None? || !Free(pods, w.claim) || Placed(pvc.value, pods).Ending? {
      ShortRound(w, pvc, pods, ok);
    } else {
      var fetch := Fetch(Some(Ok(pvc.value)));
      var w1 := After(w, Begin(|w.seen| - 1));
      var w2 := After(w1, fetch);
      var w3 := After(w2, List(Some(pods)));
      var w4 := After(w3, Patch(false));
      JobRound(w4, w4.worker.job, ok);
      var tail := JobCalls(|w.jobs|, ok);
      Prepend(w3, Patch(false), tail);
      tail := [Patch(false)] + tail;
      Prepend(w2, List(Some(pods)), tail);
      tail := [List(Some(pods))] + tail;
      Prepend(w1, fetch, tail);
      tail := [fetch] + tail;
      Prepend(w, Begin(|w.seen| - 1), tail);
      assert Round(w, pvc, pods, ok) == [Begin(|w.seen| - 1)] + tail;
    }
  }
}
