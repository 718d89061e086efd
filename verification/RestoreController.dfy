/** src/bin/restic-snapshot-controller/main.rs: reconcile_restore as it is written, one run of it being a run of the
    state machine of module Restore. */
module RestoreController {
  import opened Prelude
  import opened Restore

  datatype Action = AwaitChange | Requeue | Error

  // How the API calls of one reconcile go; report is what the Job comes to, None for an error or the deadline.
  datatype Fate = Fate(
    pvc: Option<Result<Pvc, ()>>, pods: Option<seq<Pod>>, patchFails: bool, lastPatchFails: bool, credsFail: bool,
    created: bool, createFails: bool, report: Option<bool>)

  class Cluster {
    const claim: string
    var phase: string
    var completed: bool
    var seen: seq<string>
    var jobs: seq<Job>

    constructor (claim: string)
      ensures View(Idle) == Start(claim)
    {
      this.claim := claim;
      phase, completed, seen, jobs := "", false, [""], [];
    }

    ghost function View(worker: Worker): World
      reads this
    {
      World(claim, phase, completed, seen, worker, jobs)
    }

    // set_restore_status
    method SetStatus(next: string, fails: bool) returns (ok: bool)
      modifies this`phase, this`completed, this`seen
      ensures ok == !fails
      ensures View(Idle) == if ok then WithPhase(old(View(Idle)), next, Idle) else old(View(Idle))
    {
      if fails { return false; }
      phase := next;
      completed := completed || Terminal(next);
      seen := seen + [next];
      return true;
    }

    // Writing the terminal status.
    method Finish(last: string, fate: Fate) returns (action: Action, ghost evs: seq<Event>)
      modifies this
      ensures EnabledAll(old(View(Ending(last))), evs) && View(Idle) == AfterAll(old(View(Ending(last))), evs)
      ensures action.AwaitChange? ==> phase == last
      ensures action.AwaitChange? || action.Error?
    {
      ghost var w := View(Ending(last));
      Prepend(w, Patch(fate.lastPatchFails), []);
      evs := [Patch(fate.lastPatchFails)] + [];
      var ok := SetStatus(last, fate.lastPatchFails);
      action := if ok then AwaitChange else Error;
    }

    // run_backup_job on the restore Job, and the status after it.
    method RunJob(job: Job, fate: Fate) returns (action: Action, ghost evs: seq<Event>)
      requires job.report.None? && (fate.created || fate.createFails)
      modifies this
      ensures EnabledAll(old(View(Dispatching(job))), evs) && View(Idle) == AfterAll(old(View(Dispatching(job))), evs)
      ensures action.AwaitChange? ==> Terminal(phase)
      ensures action.AwaitChange? && phase == SUCCEEDED ==> fate.report == Some(true)
    {
      ghost var w := View(Dispatching(job));
      ghost var dispatch := Dispatch(fate.created, fate.createFails);
      ghost var rest;
      var k := |jobs|;
      if fate.created { jobs := jobs + [job]; }
      if fate.createFails {
        action, rest := Finish(FAILED, fate);
      } else if fate.report.None? {
        ghost var w1 := View(Watching(k));
        action, rest := Finish(FAILED, fate);
        Prepend(w1, Watched(None), rest);
        rest := [Watched(None)] + rest;
      } else {
        ghost var w1 := View(Watching(k));
        jobs := jobs[k := jobs[k].(report := fate.report)];
        ghost var w2 := View(Watching(k));
        action, rest := Finish(if fate.report.value then SUCCEEDED else FAILED, fate);
        Prepend(w2, Watched(fate.report), rest);
        rest := [Watched(fate.report)] + rest;
        Prepend(w1, Reports(k, fate.report.value), rest);
        rest := [Reports(k, fate.report.value)] + rest;
      }
      Prepend(w, dispatch, rest);
      evs := [dispatch] + rest;
    }

    // From the free claim on.
    method DispatchJob(pvc: Pvc, pods: seq<Pod>, fate: Fate) returns (action: Action, ghost evs: seq<Event>)
      requires Free(pods, claim) && (fate.created || fate.createFails)
      modifies this
      ensures EnabledAll(old(View(Claiming(pvc, pods))), evs) && View(Idle) == AfterAll(old(View(Claiming(pvc, pods))), evs)
      ensures action.AwaitChange? ==> Terminal(phase)
    {
      ghost var w := View(Claiming(pvc, pods));
      ghost var rest := [];
      var ok := SetStatus(RUNNING, fate.patchFails);
      var node := if IsRwo(pvc) then pvc.node else None;
      var job := Job(pvc, pods, node, None);
      if !ok {
        action := Error;
      } else if IsRwo(pvc) && node.None? {
        action, rest := Finish(FAILED, fate);
      } else if fate.credsFail {
        Prepend(View(Preparing(job)), Prepare(true), []);
        action, rest := Error, [Prepare(true)] + [];
      } else {
        ghost var w1 := View(Preparing(job));
        action, rest := RunJob(job, fate);
        Prepend(w1, Prepare(false), rest);
        rest := [Prepare(false)] + rest;
      }
      Prepend(w, Patch(fate.patchFails), rest);
      evs := [Patch(fate.patchFails)] + rest;
    }

    /** One reconcile from a cached version: it goes through events of the state machine, and only stops watching a
        restore that it saw or made terminal. */
    method Reconcile(version: nat, fate: Fate) returns (action: Action, ghost evs: seq<Event>)
      requires version < |seen| && (fate.created || fate.createFails)
      modifies this
      ensures EnabledAll(old(View(Idle)), evs) && View(Idle) == AfterAll(old(View(Idle)), evs)
      ensures action.AwaitChange? ==> Terminal(old(seen)[version]) || Terminal(phase)
    {
      ghost var w := View(Idle);
      ghost var w1 := View(Fetching);
      if Terminal(seen[version]) {
        Prepend(w, Begin(version), []);
        return AwaitChange, [Begin(version)] + [];
      }
      ghost var rest;
      if fate.pvc.None? {
        action, rest := Finish(FAILED, fate);
      } else if fate.pvc.value.Err? {
        action, rest := Error, [];
      } else {
        action, rest := CheckPods(fate.pvc.value.value, fate);
      }
      Prepend(w1, Fetch(fate.pvc), rest);
      Prepend(w, Begin(version), [Fetch(fate.pvc)] + rest);
      evs := [Begin(version)] + ([Fetch(fate.pvc)] + rest);
    }

    // The safety check, once the claim is there.
    method CheckPods(pvc: Pvc, fate: Fate) returns (action: Action, ghost evs: seq<Event>)
      requires fate.created || fate.createFails
      modifies this
      ensures EnabledAll(old(View(Listing(pvc))), evs) && View(Idle) == AfterAll(old(View(Listing(pvc))), evs)
      ensures action.AwaitChange? ==> Terminal(phase)
    {
      ghost var w := View(Listing(pvc));
      ghost var rest;
      if fate.pods.None? {
        action, rest := Error, [];
      } else {
        var attached := PodAttachedToPvc(fate.pods.value, claim);
        if attached {
          Prepend(View(Yielding), Patch(fate.patchFails), []);
          rest := [Patch(fate.patchFails)] + [];
          var ok := SetStatus(WAITING, fate.patchFails);
          action := if ok then Requeue else Error;
        } else {
          action, rest := DispatchJob(pvc, fate.pods.value, fate);
        }
      }
      Prepend(w, List(fate.pods), rest);
      evs := [List(fate.pods)] + rest;
    }
  }
}
