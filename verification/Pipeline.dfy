/** plan, rollout and verbose-replace over whole trees: src/plan.rs (resolve_shell_values,
    discover_platform_files, render_to_build), src/rollout.rs (the per-file loop) and
    src/verbose_replace.rs. */
module Pipeline {
  import opened Prelude
  import opened Text
  import opened Patterns
  import opened Template
  import opened Staging
  import opened Lookup
  import Envrc

  type Env = map<string, string>

  // What a run reads. The shell is a function of command and environment.
  datatype Inputs = Inputs(
    platform: Tree,
    values: map<string, ResolvedValue>,
    snap: Snapshot,
    b64: string -> string,
    sh: (string, Env) -> Option<string>,
    home: string)

  // ── shell values ─────────────────────────────────────────────────────────

  function ShellResolved(v: ResolvedValue, sh: (string, Env) -> Option<string>, env: Env): Option<ResolvedValue> {
    if v.Shell? then
      var out := sh(v.cmd, env);
      if out.Some? then Some(Concrete(out.value)) else None
    else Some(v)
  }

  function ResolveShell(values: map<string, ResolvedValue>, sh: (string, Env) -> Option<string>, env: Env)
    : Option<map<string, ResolvedValue>>
  {
    if forall k :: k in values ==> ShellResolved(values[k], sh, env).Some?
    then Some(map k | k in values :: ShellResolved(values[k], sh, env).value)
    else None
  }

  /** The loop of resolve_shell_values; the order of a hash map is arbitrary. */
  method ResolveShellValues(values: map<string, ResolvedValue>, sh: (string, Env) -> Option<string>, env: Env)
    returns (resolved: Option<map<string, ResolvedValue>>)
    ensures resolved == ResolveShell(values, sh, env)
  {
    var todo := values.Keys;
    var out: map<string, ResolvedValue> := map[];
    while todo != {}
      invariant todo <= values.Keys && out.Keys == values.Keys - todo
      invariant forall k :: k in out ==> ShellResolved(values[k], sh, env) == Some(out[k])
    {
      var key :| key in todo;
      var concrete := ShellResolved(values[key], sh, env);
      if concrete.None? { return None; }
      out := out[key := concrete.value];
      todo := todo - {key};
    }
    assert out == map k | k in values :: ShellResolved(values[k], sh, env).value;
    return Some(out);
  }

  /** Resolving shell values keeps the keys, puts for each command what it prints in that environment, and touches nothing
      else; it fails exactly when one of the commands fails. */
  lemma {:induction false} NoShellLeft(values: map<string, ResolvedValue>, sh: (string, Env) -> Option<string>, env: Env)
    ensures var r := ResolveShell(values, sh, env); r.Some? ==>
      && r.value.Keys == values.Keys
      && (forall k :: k in values && values[k].Shell? ==>
            sh(values[k].cmd, env).Some? && r.value[k] == Concrete(sh(values[k].cmd, env).value))
      && (forall k :: k in values && !values[k].Shell? ==> r.value[k] == values[k])
    ensures ResolveShell(values, sh, env).None? <==>
      exists k :: k in values && values[k].Shell? && sh(values[k].cmd, env).None?
  {
    if k :| k in values && values[k].Shell? && sh(values[k].cmd, env).None? {
      assert ShellResolved(values[k], sh, env).None?;
    }
  }

  // ── which files, which environment ───────────────────────────────────────

  function NameOf(path: Path): string {
    if path == [] then "" else path[|path| - 1]
  }

  function DirOf(path: Path): Path {
    if path == [] then [] else path[..|path| - 1]
  }

  predicate EndsWith(s: string, suffix: string) {
    |suffix| <= |s| && s[|s| - |suffix|..] == suffix
  }

  // discover_platform_files keeps secrets.yaml, .envrc and every *.yaml and *.yml.
  predicate Discovered(path: Path) {
    path != [] && (NameOf(path) == ENVRC || EndsWith(NameOf(path), ".yaml") || EndsWith(NameOf(path), ".yml"))
  }

  // collect_yamls goes by extension, and a name that only starts with a dot has none.
  predicate Applied(path: Path) {
    && path != []
    && var name := NameOf(path);
       (EndsWith(name, ".yaml") && |name| > 5) || (EndsWith(name, ".yml") && |name| > 4)
  }

  // The discovered files that are never applied.
  const PASSED_OVER: seq<string> := [ENVRC, ".yaml", ".yml"]

  /** What is discovered is applied, except for .envrc files and two names that are nothing but an extension. */
  lemma {:induction false} AppliedIff(path: Path)
    ensures Applied(path) <==> Discovered(path) && NameOf(path) !in PASSED_OVER
  {
    var name := NameOf(path);
    assert ENVRC[1] == 'e' && !EndsWith(ENVRC, ".yaml") && !EndsWith(ENVRC, ".yml");
    assert |name| == 5 && EndsWith(name, ".yaml") ==> name[0..] == name == ".yaml";
    assert |name| == 4 && EndsWith(name, ".yml") ==> name[0..] == name == ".yml";
    assert !EndsWith(".yaml", ".yml") && !EndsWith(".yml", ".yaml");
  }

  function EnvFor(tree: Tree, dir: Path, home: string): Env {
    var r := Nearest(tree, dir, []);
    if r.Some? && r.value in tree then Envrc.Assignments(Lines(tree[r.value]), home) else map[]
  }

  // ── the plan ─────────────────────────────────────────────────────────────

  function ContextFor(w: Inputs, values: map<string, ResolvedValue>): Context {
    Context(values, w.snap, w.b64)
  }

  // What render_to_build writes for text with environment env.
  function BuildText(w: Inputs, raw: string, env: Env): Result<string, Failure> {
    if !Contains(raw, OPEN) then Ok(raw) else
      match ResolveShell(w.values, w.sh, env)
      case None => Err(ShellFailed)
      case Some(values) =>
        match RenderTemplate(ContextFor(w, values), raw)
        case Err(refs) => Err(BadRefs(refs))
        case Ok(text) => Ok(text)
  }

  function BuildFile(w: Inputs, path: Path): Result<string, Failure>
    requires path in w.platform
  {
    if NameOf(path) == ENVRC then Ok(w.platform[path])
    else BuildText(w, w.platform[path], EnvFor(w.platform, DirOf(path), w.home))
  }

  // The body of the loop, for one discovered file.
  method RenderFile(w: Inputs, path: Path) returns (r: Result<string, Failure>)
    requires path in w.platform
    ensures r == BuildFile(w, path)
  {
    var raw := w.platform[path];
    if NameOf(path) == ENVRC { return Ok(raw); }
    var found := FindEnvrcBounded(w.platform, DirOf(path), []);
    var env: Env := map[];
    if found.Some? && found.value in w.platform {
      env := Envrc.ParseAssignments(w.platform[found.value], w.home);
    }
    r := BuildText(w, raw, env);
  }

  /** render_to_build: one destination per discovered file, at the same relative path. */
  method RenderToBuild(w: Inputs, files: seq<Path>) returns (r: Result<Tree, Failure>)
    requires forall i :: 0 <= i < |files| ==> files[i] in w.platform
    ensures r.Ok? <==> forall p :: p in files ==> BuildFile(w, p).Ok?
    ensures r.Ok? ==> r.value.Keys == (set p | p in files)
    ensures r.Ok? ==> forall p :: p in files ==> BuildFile(w, p) == Ok(r.value[p])
  {
    var build: Tree := map[];
    for n := 0 to |files|
      invariant build.Keys == (set p | p in files[..n])
      invariant forall p :: p in files[..n] ==> BuildFile(w, p) == Ok(build[p])
    {
      var rendered := RenderFile(w, files[n]);
      if rendered.Err? {
        assert files[n] in files;
        return Err(rendered.error);
      }
      build := build[files[n] := rendered.value];
      assert files[..n + 1] == files[..n] + [files[n]];
    }
    assert files[..|files|] == files;
    return Ok(build);
  }

  // build/ after a successful plan of every discovered file.
  ghost predicate Planned(w: Inputs, build: Tree) {
    && (forall p :: p in build <==> p in w.platform && Discovered(p))
    && (forall p :: p in build ==> BuildFile(w, p) == Ok(build[p]))
  }

  // discover_platform_files lists exactly these, each once.
  ghost predicate Lists(files: seq<Path>, w: Inputs) {
    && (forall p :: p in files <==> p in w.platform && Discovered(p))
    && Once(files)
  }

  predicate Once(files: seq<Path>) {
    forall i, j :: 0 <= i < j < |files| ==> files[i] != files[j]
  }

  /** A plan of the discovered files that succeeds leaves a planned build/. */
  lemma {:induction false} RenderedIsPlanned(w: Inputs, files: seq<Path>, build: Tree)
    requires Lists(files, w) && (forall p :: p in files ==> p in w.platform)
    requires build.Keys == (set p | p in files) && forall p :: p in files ==> BuildFile(w, p) == Ok(build[p])
    ensures Planned(w, build)
  {
  }

  /** The .envrc found for a rendered file inside build/ is the one found for its source
      inside platform/, with the same content, and none in one means none in the other. */
  lemma {:induction false} BuildLookupAgrees(w: Inputs, build: Tree, dir: Path)
    requires Planned(w, build)
    ensures Nearest(build, dir, []) == Nearest(w.platform, dir, [])
    ensures var r := Nearest(build, dir, []); r.Some? ==>
      r.value in build && r.value in w.platform && build[r.value] == w.platform[r.value]
    ensures EnvFor(build, dir, w.home) == EnvFor(w.platform, dir, w.home)
  {
    forall d: Path
      ensures d + [ENVRC] in build <==> d + [ENVRC] in w.platform
      ensures d + [ENVRC] in build ==> build[d + [ENVRC]] == w.platform[d + [ENVRC]]
    {
      assert NameOf(d + [ENVRC]) == ENVRC;
    }
    SameEnvrcSameLookup(build, w.platform, dir, []);
  }

  // ── the rollout ──────────────────────────────────────────────────────────

  // One kubectl invocation: the file, the text on stdin, the environment.
  datatype Apply = Apply(path: Path, text: string, env: Env)

  function ApplyFor(build: Tree, vault: map<string, string>, home: string, path: Path): Option<Apply>
    requires path in build
  {
    match Fill(build[path], vault)
    case Err(_) => None
    case Ok(text) => Some(Apply(path, text, EnvFor(build, DirOf(path), home)))
  }

  // What the loop does for one file.
  datatype Done = Done(path: Path, call: Option<Apply>, ok: bool)

  function DoneFor(build: Tree, vault: map<string, string>, home: string, kubectl: Apply -> bool, path: Path): Done
    requires path in build
  {
    var call := ApplyFor(build, vault, home, path);
    Done(path, call, call.Some? && kubectl(call.value))
  }

  function AllDone(build: Tree, vault: map<string, string>, home: string, kubectl: Apply -> bool, files: seq<Path>): (r: seq<Done>)
    requires forall i :: 0 <= i < |files| ==> files[i] in build
    ensures |r| == |files|
  {
    if files == [] then []
    else [DoneFor(build, vault, home, kubectl, files[0])] + AllDone(build, vault, home, kubectl, files[1..])
  }

  lemma {:induction false} AllDoneAt(build: Tree, vault: map<string, string>, home: string, kubectl: Apply -> bool,
                                     files: seq<Path>, i: nat)
    requires (forall i :: 0 <= i < |files| ==> files[i] in build) && i < |files|
    ensures AllDone(build, vault, home, kubectl, files)[i] == DoneFor(build, vault, home, kubectl, files[i])
  {
    if i != 0 {
      AllDoneAt(build, vault, home, kubectl, files[1..], i - 1);
    }
  }

  function Pick(done: seq<Done>, ok: bool): seq<Path> {
    if done == [] then []
    else
      var last := done[|done| - 1];
      if last.ok == ok then Pick(done[..|done| - 1], ok) + [last.path] else Pick(done[..|done| - 1], ok)
  }

  lemma {:induction false} PickSnoc(done: seq<Done>, d: Done, ok: bool)
    ensures Pick(done + [d], ok) == if d.ok == ok then Pick(done, ok) + [d.path] else Pick(done, ok)
    ensures PathsOf(done + [d]) == PathsOf(done) + [d.path]
  {
    assert (done + [d])[..|done|] == done;
  }

  function PathsOf(done: seq<Done>): (r: seq<Path>)
    ensures |r| == |done|
  {
    if done == [] then [] else PathsOf(done[..|done| - 1]) + [done[|done| - 1].path]
  }

  /** No file is lost and none is counted twice. */
  lemma {:induction false} PickPartitions(done: seq<Done>)
    ensures multiset(Pick(done, true)) + multiset(Pick(done, false)) == multiset(PathsOf(done))
  {
    if done != [] {
      PickPartitions(done[..|done| - 1]);
    }
  }

  // The body of the loop, for file n.
  method Deliver(build: Tree, files: seq<Path>, n: nat, vault: map<string, string>, home: string, kubectl: Apply -> bool)
    returns (d: Done)
    requires (forall i :: 0 <= i < |files| ==> files[i] in build) && n < |files|
    ensures d == AllDone(build, vault, home, kubectl, files)[n]
    ensures d.path == files[n]
  {
    AllDoneAt(build, vault, home, kubectl, files, n);
    var path := files[n];
    var filled := Fill(build[path], vault);
    if filled.Err? { return Done(path, None, false); }
    var found := FindEnvrcBounded(build, DirOf(path), []);
    var env: Env := map[];
    if found.Some? && found.value in build {
      env := Envrc.ParseAssignments(build[found.value], home);
    }
    var call := Apply(path, filled.value, env);
    return Done(path, Some(call), kubectl(call));
  }

  // The end of the loop's body: the file goes on one of the two lists.
  method Account(done: seq<Done>, d: Done, applied: seq<Path>, failed: seq<Path>)
    returns (done': seq<Done>, applied': seq<Path>, failed': seq<Path>)
    requires applied == Pick(done, true) && failed == Pick(done, false)
    ensures done' == done + [d] && PathsOf(done') == PathsOf(done) + [d.path]
    ensures applied' == Pick(done', true) && failed' == Pick(done', false)
  {
    done', applied', failed' := done + [d], applied, failed;
    PickSnoc(done, d, true);
    PickSnoc(done, d, false);
    if d.ok {
      applied' := applied + [d.path];
    } else {
      failed' := failed + [d.path];
    }
  }

  lemma {:induction false} TakeNext<T>(all: seq<T>, n: nat)
    requires n < |all|
    ensures all[..n + 1] == all[..n] + [all[n]]
  {
  }

  lemma {:induction false} TakeAll<T>(all: seq<T>)
    ensures all[..|all|] == all
  {
  }

  /** The loop of run_rollout: every file gets the call made for it, and is listed, in order, as
      applied when its secrets were present and kubectl accepted, and as failed otherwise. */
  method RunRollout(build: Tree, files: seq<Path>, vault: map<string, string>, home: string, kubectl: Apply -> bool)
    returns (applied: seq<Path>, failed: seq<Path>, done: seq<Done>)
    requires forall i :: 0 <= i < |files| ==> files[i] in build
    ensures done == AllDone(build, vault, home, kubectl, files)
    ensures applied == Pick(done, true) && failed == Pick(done, false) && PathsOf(done) == files
  {
    applied, failed, done := [], [], [];
    for n := 0 to |files|
      invariant |AllDone(build, vault, home, kubectl, files)| == |files| && done == AllDone(build, vault, home, kubectl, files)[..n]
      invariant applied == Pick(done, true) && failed == Pick(done, false) && PathsOf(done) == files[..n]
    {
      var d := Deliver(build, files, n, vault, home, kubectl);
      TakeNext(AllDone(build, vault, home, kubectl, files), n);
      TakeNext(files, n);
      done, applied, failed := Account(done, d, applied, failed);
    }
    TakeAll(AllDone(build, vault, home, kubectl, files));
    TakeAll(files);
  }

  // ── the whole run ────────────────────────────────────────────────────────

  function Yamls(files: seq<Path>): seq<Path>
    decreases |files|
  {
    if files == [] then [] else
      var (rest, last) := (files[..|files| - 1], files[|files| - 1]);
      if Applied(last) then Yamls(rest) + [last] else Yamls(rest)
  }

  // collect_yamls over build/, in sorted order.
  method CollectYamls(files: seq<Path>) returns (out: seq<Path>)
    ensures out == Yamls(files)
  {
    out := [];
    for i := 0 to |files|
      invariant out == Yamls(files[..i])
    {
      assert files[..i + 1][..i] == files[..i];
      if Applied(files[i]) {
        out := out + [files[i]];
      }
    }
    assert files[..|files|] == files;
  }

  lemma {:induction false} YamlsExact(files: seq<Path>)
    ensures forall p :: p in Yamls(files) <==> p in files && Applied(p)
    ensures Once(files) ==> Once(Yamls(files))
    decreases |files|
  {
    if files != [] {
      var (rest, last) := (files[..|files| - 1], files[|files| - 1]);
      YamlsExact(rest);
      assert files == rest + [last];
    }
  }

  datatype Report = Report(build: Tree, applied: seq<Path>, failed: seq<Path>, done: seq<Done>)

  // Every file of build/ but those passed over is delivered, and no file twice.
  ghost predicate DeliversAll(build: Tree, done: seq<Done>) {
    && (forall p :: p in PathsOf(done) <==> p in build && NameOf(p) !in PASSED_OVER)
    && Once(PathsOf(done))
  }

  // Every call is the one made for its file.
  ghost predicate CallsMade(build: Tree, vault: map<string, string>, home: string, kubectl: Apply -> bool, done: seq<Done>) {
    forall d :: d in done ==> d.path in build && d == DoneFor(build, vault, home, kubectl, d.path)
  }

  datatype Stop = PlanFailed(failure: Failure) | NothingToApply

  ghost predicate Renders(w: Inputs, files: seq<Path>) {
    forall p :: p in files ==> p in w.platform && BuildFile(w, p).Ok?
  }

  /** plan, then rollout, over the discovered files in order: it stops before any delivery exactly when some file does
      not render or none is to be applied; otherwise every rendered file but those passed over is delivered exactly
      once, as RunRollout says. */
  method PlanAndRollout(w: Inputs, files: seq<Path>, vault: map<string, string>, kubectl: Apply -> bool)
    returns (r: Result<Report, Stop>)
    requires Lists(files, w)
    ensures r.Ok? <==> Renders(w, files) && exists p :: p in files && NameOf(p) !in PASSED_OVER
    ensures r == Err(NothingToApply) <==> Renders(w, files) && forall p :: p in files ==> NameOf(p) in PASSED_OVER
    ensures r.Ok? ==> Planned(w, r.value.build) && DeliversAll(r.value.build, r.value.done)
    ensures r.Ok? ==> CallsMade(r.value.build, vault, w.home, kubectl, r.value.done)
    ensures r.Ok? ==> r.value.applied == Pick(r.value.done, true) && r.value.failed == Pick(r.value.done, false)
  {
    var planned := RenderToBuild(w, files);
    if planned.Err? { return Err(PlanFailed(planned.error)); }
    var build := planned.value;
    RenderedIsPlanned(w, files, build);
    var yamls := CollectYamls(files);
    YamlsExact(files);
    forall p ensures p in yamls <==> p in build && NameOf(p) !in PASSED_OVER { AppliedIff(p); }
    if yamls == [] { return Err(NothingToApply); }
    assert yamls[0] in yamls;
    var applied, failed, done := RunRollout(build, yamls, vault, w.home, kubectl);
    EachDone(build, vault, w.home, kubectl, yamls);
    r := Ok(Report(build, applied, failed, done));
  }

  lemma {:induction false} EachDone(build: Tree, vault: map<string, string>, home: string, kubectl: Apply -> bool, files: seq<Path>)
    requires forall i :: 0 <= i < |files| ==> files[i] in build
    ensures CallsMade(build, vault, home, kubectl, AllDone(build, vault, home, kubectl, files))
  {
    forall i | 0 <= i < |files|
      ensures AllDone(build, vault, home, kubectl, files)[i] == DoneFor(build, vault, home, kubectl, files[i])
    {
      AllDoneAt(build, vault, home, kubectl, files, i);
    }
  }

  // ── one file, end to end ─────────────────────────────────────────────────

  function RolloutText(w: Inputs, vault: map<string, string>, raw: string, env: Env): Result<string, Failure> {
    match BuildText(w, raw, env)
    case Err(e) => Err(e)
    case Ok(text) => Fill(text, vault)
  }

  // run_verbose_replace once its input and the nearest .envrc are read.
  function VerboseText(w: Inputs, vault: map<string, string>, raw: string, env: Env): Result<string, Failure> {
    match ResolveShell(w.values, w.sh, env)
    case None => Err(ShellFailed)
    case Some(values) => RenderThenFill(ContextFor(w, values), vault, raw)
  }

  lemma {:induction false} NoOpenLater(c: char, s: string, p: string)
    requires !Contains([c] + s, p)
    ensures !Contains(s, p)
  {
    forall i | 0 <= i <= |s| - |p| ensures !(p <= s[i..]) {
      assert ([c] + s)[i + 1..] == s[i..];
    }
  }

  lemma {:induction false} NoOpenNoMatch(p: Pattern, f: Cap -> string, raw: string)
    requires Braced(p) && !Contains(raw, OPEN)
    ensures Captures(p, raw) == [] && ReplaceAll(p, f, raw) == raw
  {
    if raw != "" {
      assert raw[0..] == raw;
      assert raw == [raw[0]] + raw[1..];
      NoOpenLater(raw[0], raw[1..], OPEN);
      NoOpenNoMatch(p, f, raw[1..]);
    }
  }

  // A file without opening braces renders to itself.
  lemma {:induction false} RenderPlain(ctx: Context, raw: string)
    requires !Contains(raw, OPEN)
    ensures RenderTemplate(ctx, raw) == Ok(raw)
  {
    NoOpenNoMatch(ValueRef, Filler(ctx, ValueRef), raw);
    NoOpenNoMatch(SnapRef(Services), Filler(ctx, SnapRef(Services)), raw);
    NoOpenNoMatch(SnapRef(Packages), Filler(ctx, SnapRef(Packages)), raw);
    NoOpenNoMatch(SnapRef(Databases), Filler(ctx, SnapRef(Databases)), raw);
  }

  /** verbose-replace and plan plus rollout produce the same result for every file, except that
      verbose-replace also runs the shell commands for a file without placeholders. */
  lemma {:induction false} RolloutIsVerbose(w: Inputs, vault: map<string, string>, raw: string, env: Env)
    ensures RolloutText(w, vault, raw, env) == VerboseText(w, vault, raw, env)
      <==> Contains(raw, OPEN) || ResolveShell(w.values, w.sh, env).Some?
  {
    var values := ResolveShell(w.values, w.sh, env);
    if !Contains(raw, OPEN) {
      if values.Some? {
        RenderPlain(ContextFor(w, values.value), raw);
      }
      assert RolloutText(w, vault, raw, env) == Fill(raw, vault);
    }
  }

  // The assignments of the deepest .envrc on the way to this directory, none without one.
  predicate EnvIs(tree: Tree, dir: Path, home: string, env: Env) {
    || (env == map[] && forall k: nat :: k <= |dir| ==> dir[..k] + [".envrc"] !in tree)
    || (exists k: nat :: k <= |dir| && dir[..k] + [".envrc"] in tree
                         && (forall j: nat :: k < j <= |dir| ==> dir[..j] + [".envrc"] !in tree)
                         && env == Envrc.Assignments(Lines(tree[dir[..k] + [".envrc"]]), home))
  }

  lemma {:induction false} EnvIsDeepest(tree: Tree, dir: Path, home: string)
    ensures EnvIs(tree, dir, home, EnvFor(tree, dir, home))
  {
    NearestIsDeepest(tree, dir, []);
    assert forall k: nat :: Holds(tree, dir, k) <==> k <= |dir| && dir[..k] + [".envrc"] in tree;
    var r := Nearest(tree, dir, []);
    if r.Some? {
      var k := |r.value| - 1;
      assert r.value == dir[..k] + [".envrc"];
    }
  }

  /** The whole run for one source file: what kubectl receives for it is its direct rendering
      with shell output and vault values in place, in the environment of the .envrc nearest to
      the source; and it receives nothing exactly when a secret the file needs is absent. A file that
      opens no placeholder needs no shell value, so none has to resolve. */
  lemma {:induction false} DeliveredMeaning(w: Inputs, build: Tree, vault: map<string, string>, path: Path,
                                            toks: seq<Tok>, values: map<string, ResolvedValue>)
    requires Planned(w, build) && path in build && NameOf(path) != ENVRC
    requires w.platform[path] == Print(toks)
    requires Contains(Print(toks), OPEN) ==>
      ResolveShell(w.values, w.sh, EnvFor(w.platform, DirOf(path), w.home)) == Some(values)
    requires Stageable(ContextFor(w, values), toks)
    ensures var ctx, a := ContextFor(w, values), ApplyFor(build, vault, w.home, path);
      && AllKnown(ctx, toks)
      && (a.Some? <==> SecretsPresent(ctx, vault, toks))
      && (a.Some? ==> a.value == Apply(path, Denote(Opened(ctx, vault), toks), EnvFor(w.platform, DirOf(path), w.home)))
      && (a.Some? ==> EnvIs(w.platform, path[..|path| - 1], w.home, a.value.env))
  {
    var ctx := ContextFor(w, values);
    if !Contains(Print(toks), OPEN) {
      RenderPlain(ctx, Print(toks));
    }
    StagedIsDirect(ctx, vault, toks);
    RenderIsSimultaneous(ctx, toks);
    BuildLookupAgrees(w, build, DirOf(path));
    EnvIsDeepest(w.platform, DirOf(path), w.home);
  }
}
