/** src/bin/remote-task-controller/customrun.rs: reconcile_customrun as it is written, one run of it being a run
    of the state machine of module CustomRun. */
module CustomRunController {
  import opened Prelude
  import opened Json
  import opened CustomRun

  datatype Action = AwaitChange | Requeue | Error

  // How the API calls of one reconcile go.
  datatype Fate = Fate(
    listFails: bool, resolveError: Option<string>, createError: Option<string>, created: bool, patchFails: bool, now: string)

  class Cluster {
    var run: Json
    var seen: seq<Json>
    var taskrun: Option<Json>
    var foreign: bool
    ghost var creations: nat
    ghost var broke: set<string>
    ghost var copied: Option<Mark>

    ghost function View(worker: Worker): World
      reads this
    {
      World(run, seen, taskrun, foreign, worker, creations, broke, copied)
    }

    // patch_status
    method PatchStatus(m: Mark, ghost why: Why, fate: Fate) returns (ok: bool)
      modifies this
      ensures ok == !fate.patchFails
      ensures Enabled(old(View(Marking(m, why))), Patch(fate.now, fate.patchFails))
      ensures View(Idle) == After(old(View(Marking(m, why))), Patch(fate.now, fate.patchFails))
    {
      if fate.patchFails { return false; }
      run := Marked(run, m, fate.now);
      seen := seen + [run];
      if why.Synced? && !m.Running? && copied.None? {
        copied := Some(m);
      }
      return true;
    }

    // create_taskrun: a name already taken is success.
    method CreateTaskrun(fate: Fate) returns (error: Option<string>)
      modifies this
      ensures error == fate.createError
      ensures var t := After(old(View(Creating)), Create(fate.createError, fate.created)); View(t.worker) == t
    {
      if taskrun.None? && !foreign && (fate.createError.None? || fate.created) {
        taskrun := Some(Obj(map[]));
        creations := creations + 1;
      }
      if fate.createError.Some? { broke := broke + {NotCreated(fate.createError.value)}; }
      return fate.createError;
    }

    // sync_status_from_taskrun: whether the status written is terminal.
    method SyncStatus(found: Json, fate: Fate) returns (r: Result<bool, ()>)
      modifies this
      ensures var m := MarkOf(ReportOf(found));
        && Enabled(old(View(Marking(m, Synced))), Patch(fate.now, fate.patchFails))
        && View(Idle) == After(old(View(Marking(m, Synced))), Patch(fate.now, fate.patchFails))
        && r == (if fate.patchFails then Err(()) else Ok(!m.Running?))
      ensures r.Ok? ==> Copies(found, run) && (r.value <==> Says(found, "True") || Says(found, "False"))
    {
      ghost var m := MarkOf(ReportOf(found));
      MarkedReads(run, m, fate.now);
      SyncedCopies(found, Marked(run, m, fate.now));
      ReportMeans(found, "");
      var c := FirstSucceeded(Conditions(found));
      var ok;
      if c.None? {
        ok := PatchStatus(Running, Synced, fate);
        return if ok then Ok(false) else Err(());
      }
      var status := OrElse(AsStr(Get(c.value, "status")), "Unknown");
      if status == "True" {
        ok := PatchStatus(Succeeded, Synced, fate);
        return if ok then Ok(true) else Err(());
      }
      if status == "False" {
        ok := PatchStatus(Failed(OrElse(AsStr(Get(c.value, "message")), "TaskRun failed")), Synced, fate);
        return if ok then Ok(true) else Err(());
      }
      ok := PatchStatus(Running, Synced, fate);
      return if ok then Ok(false) else Err(());
    }

    // The branch of reconcile_customrun without a TaskRun.
    method StartTaskrun(fate: Fate) returns (action: Action, ghost evs: seq<Event>)
      requires taskrun.None?
      modifies this
      ensures EnabledAll(old(View(Resolving)), evs) && View(Idle) == AfterAll(old(View(Resolving)), evs)
      ensures action.AwaitChange? ==> IsTerminal(run)
    {
      ghost var w := View(Resolving);
      ghost var patch := Patch(fate.now, fate.patchFails);
      if fate.resolveError.Some? {
        var m := Failed(Invalid(fate.resolveError.value));
        broke := broke + {Invalid(fate.resolveError.value)};
        var ok := PatchStatus(m, Broken, fate);
        MarkedReads(w.run, m, fate.now);
        Prepend(After(w, Resolve(fate.resolveError)), patch, []);
        Prepend(w, Resolve(fate.resolveError), [patch] + []);
        return if ok then AwaitChange else Error, [Resolve(fate.resolveError)] + ([patch] + []);
      }
      var error := CreateTaskrun(fate);
      var m := if error.Some? then Failed(NotCreated(error.value)) else Running;
      var ok := PatchStatus(m, if error.Some? then Broken else Created, fate);
      MarkedReads(w.run, m, fate.now);
      ghost var w1 := After(w, Resolve(None));
      ghost var create := Create(fate.createError, fate.created);
      Prepend(After(w1, create), patch, []);
      Prepend(w1, create, [patch] + []);
      Prepend(w, Resolve(None), [create] + ([patch] + []));
      evs := [Resolve(None)] + ([create] + ([patch] + []));
      action := if !ok then Error else if error.Some? then AwaitChange else Requeue;
    }

    /** One reconcile from a cached version: it goes through events of the state machine, and only stops watching a
        CustomRun that it saw or made terminal. */
    method Reconcile(version: nat, fate: Fate) returns (action: Action, ghost evs: seq<Event>)
      requires version < |seen|
      modifies this
      ensures EnabledAll(old(View(Idle)), evs) && View(Idle) == AfterAll(old(View(Idle)), evs)
      ensures action.AwaitChange? ==> IsTerminal(old(seen)[version]) || IsTerminal(run)
    {
      ghost var w := View(Idle);
      ghost var w1 := View(Listing);
      if IsTerminal(seen[version]) {
        Prepend(w, Begin(version), []);
        return AwaitChange, [Begin(version)] + [];
      }
      if fate.listFails {
        Prepend(w1, List(true), []);
        Prepend(w, Begin(version), [List(true)] + []);
        return Error, [Begin(version)] + ([List(true)] + []);
      }
      ghost var rest;
      if taskrun.Some? {
        var m := MarkOf(ReportOf(taskrun.value));
        ghost var patch := Patch(fate.now, fate.patchFails);
        MarkedReads(run, m, fate.now);
        Prepend(View(Marking(m, Synced)), patch, []);
        rest := [patch] + [];
        var done := SyncStatus(taskrun.value, fate);
        action := if done.Err? then Error else if done.value then AwaitChange else Requeue;
      } else {
        action, rest := StartTaskrun(fate);
      }
      Prepend(w1, List(false), rest);
      Prepend(w, Begin(version), [List(false)] + rest);
      evs := [Begin(version)] + ([List(false)] + rest);
    }
  }
}
