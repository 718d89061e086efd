/** src/bin/remote-task-controller/customrun.rs and taskrun.rs: from the parameters of a CustomRun
    to the step and the labels of its TaskRun. */
module TaskRun {
  import opened Prelude
  import opened Json

  datatype ParamValue = Text(s: string) | Items(items: seq<string>)
  datatype Param = Param(name: string, value: ParamValue)

  datatype Spec = Spec(capability: string, script: string, cleanup: Option<string>, env: seq<Json>)

  // serde_yaml::from_str on an env param.
  type Yaml = string -> Result<seq<Json>, string>

  // ── inline parameters ────────────────────────────────────────────────────

  // The last text given under a name; lists are passed over.
  function LastText(params: seq<Param>, name: string): Option<string>
    decreases |params|
  {
    if params == [] then None else
      var p := params[|params| - 1];
      if p.name == name && p.value.Text? then Some(p.value.s) else LastText(params[..|params| - 1], name)
  }

  predicate Gives(p: Param, name: string) {
    p.name == name && p.value.Text?
  }

  // The first env text that does not parse.
  function BadEnv(params: seq<Param>, yaml: Yaml): Option<string>
    decreases |params|
  {
    if params == [] then None else
      var bad := BadEnv(params[..|params| - 1], yaml);
      var p := params[|params| - 1];
      if bad.Some? then bad
      else if Gives(p, "env") && yaml(p.value.s).Err? then Some("env: " + yaml(p.value.s).error)
      else None
  }

  function LastEnv(params: seq<Param>, yaml: Yaml): seq<Json> {
    var raw := LastText(params, "env");
    if raw.Some? && yaml(raw.value).Ok? then yaml(raw.value).value else []
  }

  // What a parameter list means.
  function SpecOf(params: seq<Param>, yaml: Yaml): Result<Spec, string> {
    var script := LastText(params, "script");
    if BadEnv(params, yaml).Some? then Err(BadEnv(params, yaml).value)
    else if script.None? then Err("missing required param 'script'")
    else Ok(Spec(OrElse(LastText(params, "capability"), "unix"), script.value, LastText(params, "cleanup"),
                 LastEnv(params, yaml)))
  }

  /** The text returned is a given one, and none is given after it. */
  lemma {:induction false} LastTextIsLast(params: seq<Param>, name: string)
    ensures var r := LastText(params, name);
      && (r.None? <==> forall i :: 0 <= i < |params| ==> !Gives(params[i], name))
      && (r.Some? ==> exists i :: 0 <= i < |params| && params[i] == Param(name, Text(r.value)) &&
                                  forall j :: i < j < |params| ==> !Gives(params[j], name))
    decreases |params|
  {
    if params != [] {
      var n := |params| - 1;
      LastTextIsLast(params[..n], name);
      if Gives(params[n], name) {
        assert params[n] == Param(name, Text(params[n].value.s));
      } else if LastText(params[..n], name).Some? {
        var i :| 0 <= i < n && params[..n][i] == Param(name, Text(LastText(params, name).value)) &&
                 forall j :: i < j < n ==> !Gives(params[..n][j], name);
        assert params[i] == params[..n][i];
        assert forall j :: i < j < |params| ==> j == n || params[j] == params[..n][j];
      } else {
        assert forall j :: 0 <= j < |params| ==> j == n || params[j] == params[..n][j];
      }
    }
  }

  // This text is given under the name, and none after it.
  predicate LastGiven(params: seq<Param>, name: string, text: string) {
    exists i :: 0 <= i < |params| && params[i] == Param(name, Text(text)) &&
                forall j :: i < j < |params| ==> !(params[j].name == name && params[j].value.Text?)
  }

  predicate NeverGiven(params: seq<Param>, name: string) {
    forall i :: 0 <= i < |params| ==> !(params[i].name == name && params[i].value.Text?)
  }

  // The first env text that does not parse, and why.
  predicate FirstBad(params: seq<Param>, yaml: Yaml, error: string) {
    exists i :: 0 <= i < |params| && params[i].name == "env" && params[i].value.Text? && yaml(params[i].value.s) == Err(error) &&
                forall j :: 0 <= j < i && params[j].name == "env" && params[j].value.Text? ==> yaml(params[j].value.s).Ok?
  }

  lemma {:induction false} BadIsFirst(params: seq<Param>, yaml: Yaml)
    ensures BadEnv(params, yaml).Some? ==> exists error :: FirstBad(params, yaml, error) && BadEnv(params, yaml).value == "env: " + error
    ensures BadEnv(params, yaml).None? ==>
      forall i :: 0 <= i < |params| && params[i].name == "env" && params[i].value.Text? ==> yaml(params[i].value.s).Ok?
    decreases |params|
  {
    if params != [] {
      var n := |params| - 1;
      var front := params[..n];
      BadIsFirst(front, yaml);
      assert forall i :: 0 <= i < n ==> params[i] == front[i];
      if BadEnv(front, yaml).Some? {
        var error :| FirstBad(front, yaml, error) && BadEnv(front, yaml).value == "env: " + error;
        var i :| 0 <= i < n && front[i].name == "env" && front[i].value.Text? && yaml(front[i].value.s) == Err(error) &&
                 forall j :: 0 <= j < i && front[j].name == "env" && front[j].value.Text? ==> yaml(front[j].value.s).Ok?;
        assert params[i] == front[i];
        assert FirstBad(params, yaml, error);
      } else if BadEnv(params, yaml).Some? {
        assert params[n].name == "env" && yaml(params[n].value.s) == Err(yaml(params[n].value.s).error);
        assert FirstBad(params, yaml, yaml(params[n].value.s).error);
      }
    }
  }

  /** Inline parameters: the last text of each gives its field, with unix for a capability never given; they are refused
      for the first env that does not parse, or else for want of a script. */
  lemma {:induction false} ParamsMean(params: seq<Param>, yaml: Yaml)
    ensures match SpecOf(params, yaml)
      case Ok(spec) =>
        && (LastGiven(params, "capability", spec.capability) || (NeverGiven(params, "capability") && spec.capability == "unix"))
        && LastGiven(params, "script", spec.script)
        && (if spec.cleanup.Some? then LastGiven(params, "cleanup", spec.cleanup.value) else NeverGiven(params, "cleanup"))
        && ((exists text :: LastGiven(params, "env", text) && yaml(text) == Ok(spec.env)) || (NeverGiven(params, "env") && spec.env == []))
      case Err(message) =>
        || (exists error :: FirstBad(params, yaml, error) && message == "env: " + error)
        || (NeverGiven(params, "script") && message == "missing required param 'script'")
  {
    BadIsFirst(params, yaml);
    LastTextIsLast(params, "capability");
    LastTextIsLast(params, "script");
    LastTextIsLast(params, "cleanup");
    LastTextIsLast(params, "env");
    var raw := LastText(params, "env");
    if raw.Some? {
      assert LastGiven(params, "env", raw.value);
    }
  }

  method ParseParams(params: seq<Param>, yaml: Yaml) returns (r: Result<Spec, string>)
    ensures r == SpecOf(params, yaml)
  {
    var capability: Option<string>, script: Option<string>, cleanup: Option<string> := None, None, None;
    var env: seq<Json> := [];
    for i := 0 to |params|
      invariant capability == LastText(params[..i], "capability") && script == LastText(params[..i], "script")
      invariant cleanup == LastText(params[..i], "cleanup")
      invariant BadEnv(params[..i], yaml).None? && env == LastEnv(params[..i], yaml)
    {
      var p := params[i];
      assert params[..i + 1][..i] == params[..i];
      if p.name == "capability" {
        capability := if p.value.Text? then Some(p.value.s) else capability;
      } else if p.name == "script" {
        script := if p.value.Text? then Some(p.value.s) else script;
      } else if p.name == "cleanup" {
        cleanup := if p.value.Text? then Some(p.value.s) else cleanup;
      } else if p.name == "env" {
        if p.value.Text? {
          var parsed := yaml(p.value.s);
          if parsed.Err? {
            BadEnvStays(params, i + 1, yaml);
            return Err("env: " + parsed.error);
          }
          env := parsed.value;
        }
      }
    }
    assert params[..|params|] == params;
    if script.None? { return Err("missing required param 'script'"); }
    r := Ok(Spec(OrElse(capability, "unix"), script.value, cleanup, env));
  }

  lemma {:induction false} BadEnvStays(params: seq<Param>, i: nat, yaml: Yaml)
    requires i <= |params| && BadEnv(params[..i], yaml).Some?
    ensures BadEnv(params, yaml) == BadEnv(params[..i], yaml)
    decreases |params|
  {
    if i == |params| {
      assert params[..i] == params;
    } else {
      var n := |params| - 1;
      assert params[..n][..i] == params[..i];
      BadEnvStays(params[..n], i, yaml);
    }
  }

  // ── a referenced RemoteTask ──────────────────────────────────────────────

  // The env parameters in order, all of them.
  function AllEnv(params: seq<Param>, yaml: Yaml): seq<Json>
    decreases |params|
  {
    if params == [] then [] else
      var p := params[|params| - 1];
      var before := AllEnv(params[..|params| - 1], yaml);
      if Gives(p, "env") && yaml(p.value.s).Ok? then before + yaml(p.value.s).value else before
  }

  // Unlike the other parameters, the first one counts, even when it is a list.
  function Namespace(params: seq<Param>, default: string): string {
    if params == [] then default
    else if params[0].name == "namespace" then (if params[0].value.Text? then params[0].value.s else default)
    else Namespace(params[1..], default)
  }

  // The API lookup: an error, no object, or the object.
  type Lookup = (string, string) -> Result<Option<Spec>, string>

  function ResolvedSpec(ref: Option<string>, ns: string, params: seq<Param>, yaml: Yaml, lookup: Lookup): Result<Spec, string> {
    if ref.None? then SpecOf(params, yaml) else
      var target := Namespace(params, ns);
      match lookup(target, ref.value)
      case Err(e) => Err(e)
      case Ok(None) => Err("referenced RemoteTask '" + target + "/" + ref.value + "' not found")
      case Ok(Some(task)) =>
        if BadEnv(params, yaml).Some? then Err(BadEnv(params, yaml).value)
        else Ok(task.(env := task.env + AllEnv(params, yaml)))
  }

  // The namespace a reference is looked up in: the text of the first parameter of that name, if it is one.
  predicate LooksIn(params: seq<Param>, default: string, ns: string) {
    || (ns == default && forall i :: 0 <= i < |params| ==> params[i].name != "namespace")
    || (exists i :: 0 <= i < |params| && params[i].name == "namespace" && (forall j :: 0 <= j < i ==> params[j].name != "namespace") &&
                    ns == if params[i].value.Text? then params[i].value.s else default)
  }

  lemma {:induction false} FirstNamespace(params: seq<Param>, i: nat, default: string)
    requires i < |params| && params[i].name == "namespace" && forall j :: 0 <= j < i ==> params[j].name != "namespace"
    ensures Namespace(params, default) == if params[i].value.Text? then params[i].value.s else default
  {
    if i != 0 {
      FirstNamespace(params[1..], i - 1, default);
    }
  }

  lemma {:induction false} FirstNamed(params: seq<Param>) returns (i: nat)
    requires NamesOne(params)
    ensures i < |params| && params[i].name == "namespace" && forall j :: 0 <= j < i ==> params[j].name != "namespace"
  {
    i := 0;
    if params[0].name != "namespace" {
      assert forall j :: 0 < j < |params| ==> params[j] == params[1..][j - 1];
      i := FirstNamed(params[1..]);
      i := i + 1;
    }
  }

  lemma {:induction false} NamespaceIsFirst(params: seq<Param>, default: string)
    ensures LooksIn(params, default, Namespace(params, default))
  {
    if NamesOne(params) {
      var i := FirstNamed(params);
      FirstNamespace(params, i, default);
    } else {
      NamespaceAlone(params, default);
    }
  }

  // What one parameter adds to the environment.
  function Adds(p: Param, yaml: Yaml): seq<Json> {
    if p.name == "env" && p.value.Text? && yaml(p.value.s).Ok? then yaml(p.value.s).value else []
  }

  function Flat(lists: seq<seq<Json>>): seq<Json> {
    if lists == [] then [] else lists[0] + Flat(lists[1..])
  }

  lemma {:induction false} FlatSnoc(lists: seq<seq<Json>>, last: seq<Json>)
    ensures Flat(lists + [last]) == Flat(lists) + last
  {
    if lists == [] {
      assert [] + [last] == [last] && last + [] == last && [] + last == last && [last][1..] == [];
    } else {
      assert (lists + [last])[1..] == lists[1..] + [last];
      FlatSnoc(lists[1..], last);
      assert lists[0] + (Flat(lists[1..]) + last) == lists[0] + Flat(lists[1..]) + last;
    }
  }

  lemma {:induction false} AllEnvIsFlat(params: seq<Param>, yaml: Yaml) returns (lists: seq<seq<Json>>)
    ensures |lists| == |params| && AllEnv(params, yaml) == Flat(lists)
    ensures forall i :: 0 <= i < |params| ==> lists[i] == Adds(params[i], yaml)
    decreases |params|
  {
    lists := [];
    if params != [] {
      var n := |params| - 1;
      var before := AllEnvIsFlat(params[..n], yaml);
      FlatSnoc(before, Adds(params[n], yaml));
      assert AllEnv(params, yaml) == AllEnv(params[..n], yaml) + Adds(params[n], yaml);
      lists := before + [Adds(params[n], yaml)];
    }
  }

  /** A reference means the object found under its name in that namespace, with what the env parameters give, in order,
      behind its own environment; it is refused with the error of the lookup, for want of such an object, or for the
      first env that does not parse. */
  lemma {:induction false} ReferenceMeans(ref: string, default: string, params: seq<Param>, yaml: Yaml, lookup: Lookup)
    returns (ns: string, lists: seq<seq<Json>>)
    ensures LooksIn(params, default, ns)
    ensures |lists| == |params| && forall i :: 0 <= i < |params| ==> lists[i] == Adds(params[i], yaml)
    ensures match ResolvedSpec(Some(ref), default, params, yaml, lookup)
      case Ok(spec) =>
        && lookup(ns, ref).Ok? && lookup(ns, ref).value.Some?
        && var task := lookup(ns, ref).value.value; spec == task.(env := task.env + Flat(lists))
      case Err(message) =>
        || lookup(ns, ref) == Err(message)
        || (lookup(ns, ref) == Ok(None) && message == "referenced RemoteTask '" + ns + "/" + ref + "' not found")
        || (exists error :: FirstBad(params, yaml, error) && message == "env: " + error)
  {
    ns := Namespace(params, default);
    NamespaceIsFirst(params, default);
    BadIsFirst(params, yaml);
    lists := AllEnvIsFlat(params, yaml);
  }

  method ResolveTaskSpec(ref: Option<string>, ns: string, params: seq<Param>, yaml: Yaml, lookup: Lookup)
    returns (r: Result<Spec, string>)
    ensures r == ResolvedSpec(ref, ns, params, yaml, lookup)
  {
    if ref.None? {
      r := ParseParams(params, yaml);
      return;
    }
    var target := Namespace(params, ns);
    var found := lookup(target, ref.value);
    if found.Err? { return Err(found.error); }
    if found.value.None? { return Err("referenced RemoteTask '" + target + "/" + ref.value + "' not found"); }
    var task := found.value.value;
    var env := task.env;
    for i := 0 to |params|
      invariant BadEnv(params[..i], yaml).None? && env == task.env + AllEnv(params[..i], yaml)
    {
      var p := params[i];
      assert params[..i + 1][..i] == params[..i];
      if p.name == "env" && p.value.Text? {
        var parsed := yaml(p.value.s);
        if parsed.Err? {
          BadEnvStays(params, i + 1, yaml);
          return Err("env: " + parsed.error);
        }
        env := env + parsed.value;
      }
    }
    assert params[..|params|] == params;
    r := Ok(task.(env := env));
  }

  // The parameters a reference still listens to.
  function Heeded(params: seq<Param>): (r: seq<Param>)
    ensures forall p :: p in r ==> p in params && (p.name == "namespace" || p.name == "env")
    decreases |params|
  {
    if params == [] then [] else
      var p := params[|params| - 1];
      var before := Heeded(params[..|params| - 1]);
      if p.name == "namespace" || p.name == "env" then before + [p] else before
  }

  predicate NamesOne(params: seq<Param>) {
    exists i :: 0 <= i < |params| && params[i].name == "namespace"
  }

  lemma {:induction false} NamesAppend(params: seq<Param>, p: Param)
    ensures NamesOne(params + [p]) <==> NamesOne(params) || p.name == "namespace"
  {
    assert (params + [p])[|params|] == p;
    if i :| 0 <= i < |params| && params[i].name == "namespace" {
      assert (params + [p])[i] == params[i];
    }
  }

  lemma {:induction false} NamespaceAppend(params: seq<Param>, p: Param, default: string)
    ensures Namespace(params + [p], default) ==
      if NamesOne(params) then Namespace(params, default) else Namespace([p], default)
  {
    if params == [] {
      assert params + [p] == [p];
    } else {
      assert (params + [p])[1..] == params[1..] + [p];
      NamespaceAppend(params[1..], p, default);
      assert forall i :: 0 < i < |params| ==> params[i] == params[1..][i - 1];
      assert forall i :: 0 <= i < |params[1..]| ==> params[1..][i] == params[i + 1];
    }
  }

  lemma {:induction false} NamespaceAlone(params: seq<Param>, default: string)
    requires !NamesOne(params)
    ensures Namespace(params, default) == default
  {
    if params != [] {
      assert params[0].name != "namespace";
      assert forall i :: 0 <= i < |params[1..]| ==> params[1..][i] == params[i + 1];
      NamespaceAlone(params[1..], default);
    }
  }

  lemma {:induction false} HeededEnv(params: seq<Param>, yaml: Yaml)
    ensures BadEnv(Heeded(params), yaml) == BadEnv(params, yaml) && AllEnv(Heeded(params), yaml) == AllEnv(params, yaml)
    decreases |params|
  {
    if params != [] {
      var p, heeded := params[|params| - 1], Heeded(params[..|params| - 1]);
      HeededEnv(params[..|params| - 1], yaml);
      assert (heeded + [p])[..|heeded|] == heeded;
    }
  }

  lemma {:induction false} HeededNamespace(params: seq<Param>, default: string)
    ensures Namespace(Heeded(params), default) == Namespace(params, default)
    ensures NamesOne(Heeded(params)) <==> NamesOne(params)
    decreases |params|
  {
    if params != [] {
      var p, front := params[|params| - 1], params[..|params| - 1];
      HeededNamespace(front, default);
      assert params == front + [p];
      NamespaceAppend(front, p, default);
      NamespaceAppend(Heeded(front), p, default);
      NamesAppend(front, p);
      NamesAppend(Heeded(front), p);
      if !NamesOne(front) && p.name != "namespace" {
        NamespaceAlone([p], default);
        NamespaceAlone(front, default);
      }
    }
  }

  /** A reference decides everything but the namespace it is looked up in and the entries added to its
      environment: all other parameters, script, capability and cleanup among them, change nothing. */
  lemma {:induction false} ReferenceDecides(ref: string, ns: string, params: seq<Param>, yaml: Yaml, lookup: Lookup)
    ensures ResolvedSpec(Some(ref), ns, params, yaml, lookup) == ResolvedSpec(Some(ref), ns, Heeded(params), yaml, lookup)
  {
    HeededEnv(params, yaml);
    HeededNamespace(params, ns);
  }

  // ── the TaskRun ──────────────────────────────────────────────────────────

  function Var(name: string, value: string): Json {
    Obj(map["name" := Str(name), "value" := Str(value)])
  }

  const AUTH_PATH: string := "/workspace/creds/ginger-society/auth.json"

  function ControllerEnv(spec: Spec, executorUrl: string): seq<Json> {
    [Var("REMOTE_SCRIPT", spec.script), Var("REMOTE_CAPABILITY", spec.capability),
     Var("EXTERNAL_EXECUTOR_URL", executorUrl), Var("GINGER_AUTH_PATH", AUTH_PATH)] +
    (if spec.cleanup.Some? then [Var("REMOTE_CLEANUP", spec.cleanup.value)] else [])
  }

  // A container sees the last entry under a name.
  function Seen(env: seq<Json>, name: string): Option<Json>
    decreases |env|
  {
    if env == [] then None
    else if Get(env[|env| - 1], "name") == Some(Str(name)) then Some(env[|env| - 1])
    else Seen(env[..|env| - 1], name)
  }

  lemma {:induction false} SeenAppend(a: seq<Json>, b: seq<Json>, name: string)
    ensures Seen(a + b, name) == if Seen(b, name).Some? then Seen(b, name) else Seen(a, name)
    decreases |b|
  {
    if b == [] {
      assert a + b == a;
    } else {
      assert (a + b)[..|a + b| - 1] == a + b[..|b| - 1];
      SeenAppend(a, b[..|b| - 1], name);
    }
  }

  // The value the controller sets under a name.
  function Set(spec: Spec, executorUrl: string, name: string): Option<string> {
    if name == "REMOTE_SCRIPT" then Some(spec.script)
    else if name == "REMOTE_CAPABILITY" then Some(spec.capability)
    else if name == "EXTERNAL_EXECUTOR_URL" then Some(executorUrl)
    else if name == "GINGER_AUTH_PATH" then Some(AUTH_PATH)
    else if name == "REMOTE_CLEANUP" then spec.cleanup
    else None
  }

  lemma {:induction false} SeenSnoc(env: seq<Json>, key: string, value: string, name: string)
    ensures Seen(env + [Var(key, value)], name) == if key == name then Some(Var(key, value)) else Seen(env, name)
  {
    assert (env + [Var(key, value)])[..|env|] == env;
  }

  lemma {:induction false} ControllerSeen(spec: Spec, executorUrl: string, name: string)
    ensures var set_ := Set(spec, executorUrl, name);
      Seen(ControllerEnv(spec, executorUrl), name) == if set_.Some? then Some(Var(name, set_.value)) else None
  {
    var one := [] + [Var("REMOTE_SCRIPT", spec.script)];
    var two := one + [Var("REMOTE_CAPABILITY", spec.capability)];
    var three := two + [Var("EXTERNAL_EXECUTOR_URL", executorUrl)];
    var four := three + [Var("GINGER_AUTH_PATH", AUTH_PATH)];
    SeenSnoc([], "REMOTE_SCRIPT", spec.script, name);
    SeenSnoc(one, "REMOTE_CAPABILITY", spec.capability, name);
    SeenSnoc(two, "EXTERNAL_EXECUTOR_URL", executorUrl, name);
    SeenSnoc(three, "GINGER_AUTH_PATH", AUTH_PATH, name);
    if spec.cleanup.Some? {
      SeenSnoc(four, "REMOTE_CLEANUP", spec.cleanup.value, name);
      assert ControllerEnv(spec, executorUrl) == four + [Var("REMOTE_CLEANUP", spec.cleanup.value)];
    } else {
      assert ControllerEnv(spec, executorUrl) == four;
    }
  }

  // What the runner should see: the controller's value where there is one, else the user's last entry.
  function Intended(spec: Spec, executorUrl: string, name: string): Option<Json> {
    var set_ := Set(spec, executorUrl, name);
    if set_.Some? then Some(Var(name, set_.value)) else Seen(spec.env, name)
  }

  /** No entry given by the user shadows what the controller sets. REMOTE_CLEANUP is set only when the spec
      has a cleanup; without one a user's entry of that name does reach the runner. */
  lemma {:induction false} ControllerWins(spec: Spec, executorUrl: string, name: string)
    ensures Seen(spec.env + ControllerEnv(spec, executorUrl), name) == Intended(spec, executorUrl, name)
    ensures Set(spec, executorUrl, "REMOTE_CLEANUP").Some? <==> spec.cleanup.Some?
  {
    ControllerSeen(spec, executorUrl, name);
    SeenAppend(spec.env, ControllerEnv(spec, executorUrl), name);
  }

  predicate Named(entry: Json, name: string) {
    entry.Obj? && "name" in entry.fields && entry.fields["name"] == Str(name)
  }

  // The last entry of this name gives this value.
  predicate Shows(env: seq<Json>, name: string, value: string) {
    exists i :: 0 <= i < |env| && env[i] == Obj(map["name" := Str(name), "value" := Str(value)]) &&
                forall j :: i < j < |env| ==> !Named(env[j], name)
  }

  lemma {:induction false} SeenShows(env: seq<Json>, name: string, value: string)
    requires Seen(env, name) == Some(Var(name, value))
    ensures Shows(env, name, value)
    decreases |env|
  {
    var n := |env| - 1;
    if Named(env[n], name) {
      assert env[n] == Obj(map["name" := Str(name), "value" := Str(value)]);
    } else {
      SeenShows(env[..n], name, value);
      var i :| 0 <= i < n && env[..n][i] == Obj(map["name" := Str(name), "value" := Str(value)]) &&
               forall j :: i < j < n ==> !Named(env[..n][j], name);
      assert env[i] == env[..n][i] && forall j :: i < j < |env| ==> j == n || env[j] == env[..n][j];
    }
  }

  // What the controller sets, as a container finds it.
  predicate ShowsAll(spec: Spec, executorUrl: string, env: seq<Json>) {
    && Shows(env, "REMOTE_SCRIPT", spec.script) && Shows(env, "REMOTE_CAPABILITY", spec.capability)
    && Shows(env, "EXTERNAL_EXECUTOR_URL", executorUrl)
    && Shows(env, "GINGER_AUTH_PATH", "/workspace/creds/ginger-society/auth.json")
    && (spec.cleanup.Some? ==> Shows(env, "REMOTE_CLEANUP", spec.cleanup.value))
  }

  lemma {:induction false} SetIs(spec: Spec, executorUrl: string)
    ensures Set(spec, executorUrl, "REMOTE_SCRIPT") == Some(spec.script)
    ensures Set(spec, executorUrl, "REMOTE_CAPABILITY") == Some(spec.capability)
    ensures Set(spec, executorUrl, "EXTERNAL_EXECUTOR_URL") == Some(executorUrl)
    ensures Set(spec, executorUrl, "GINGER_AUTH_PATH") == Some("/workspace/creds/ginger-society/auth.json")
    ensures Set(spec, executorUrl, "REMOTE_CLEANUP") == spec.cleanup
  {
  }

  lemma {:induction false} SetShows(spec: Spec, executorUrl: string, env: seq<Json>, name: string, value: string)
    requires forall key :: Seen(env, key) == Intended(spec, executorUrl, key)
    requires Set(spec, executorUrl, name) == Some(value)
    ensures Shows(env, name, value)
  {
    assert Seen(env, name) == Intended(spec, executorUrl, name);
    SeenShows(env, name, value);
  }

  lemma {:induction false} EnvShows(spec: Spec, executorUrl: string, env: seq<Json>)
    requires forall key :: Seen(env, key) == Intended(spec, executorUrl, key)
    ensures ShowsAll(spec, executorUrl, env)
  {
    SetIs(spec, executorUrl);
    SetShows(spec, executorUrl, env, "REMOTE_SCRIPT", spec.script);
    SetShows(spec, executorUrl, env, "REMOTE_CAPABILITY", spec.capability);
    SetShows(spec, executorUrl, env, "EXTERNAL_EXECUTOR_URL", executorUrl);
    SetShows(spec, executorUrl, env, "GINGER_AUTH_PATH", "/workspace/creds/ginger-society/auth.json");
    if spec.cleanup.Some? { SetShows(spec, executorUrl, env, "REMOTE_CLEANUP", spec.cleanup.value); }
  }

  /** The environment of the step: the user's entries stay, but a container sees the controller's values. */
  method StepEnv(spec: Spec, executorUrl: string) returns (env: seq<Json>)
    ensures ShowsAll(spec, executorUrl, env)
    ensures spec.env <= env && |env| == |spec.env| + if spec.cleanup.Some? then 5 else 4
    ensures forall name :: Seen(env, name) == Intended(spec, executorUrl, name)
    ensures env == spec.env + ControllerEnv(spec, executorUrl)
  {
    env := spec.env;
    env := env + [Var("REMOTE_SCRIPT", spec.script), Var("REMOTE_CAPABILITY", spec.capability),
                  Var("EXTERNAL_EXECUTOR_URL", executorUrl), Var("GINGER_AUTH_PATH", AUTH_PATH)];
    if spec.cleanup.Some? {
      env := env + [Var("REMOTE_CLEANUP", spec.cleanup.value)];
    }
    assert env == spec.env + ControllerEnv(spec, executorUrl);
    forall name
      ensures Seen(env, name) == Intended(spec, executorUrl, name)
    {
      ControllerWins(spec, executorUrl, name);
    }
    EnvShows(spec, executorUrl, env);
  }

  // ── labels ───────────────────────────────────────────────────────────────

  const TRACKING: string := "remotetask-customrun"
  const MANAGED: string := "app.kubernetes.io/managed-by"

  const FORWARDED: seq<string> := ["tekton.dev/pipeline", "tekton.dev/pipelineRun", "tekton.dev/pipelineRunUID",
                                   "tekton.dev/pipelineTask", "tekton.dev/memberOf"]

  predicate Pipelined(key: string) {
    || key == "tekton.dev/pipeline" || key == "tekton.dev/pipelineRun" || key == "tekton.dev/pipelineRunUID"
    || key == "tekton.dev/pipelineTask" || key == "tekton.dev/memberOf"
  }

  lemma {:induction false} ForwardedIff(key: string)
    ensures key in FORWARDED <==> Pipelined(key)
  {
    assert FORWARDED[0] == "tekton.dev/pipeline" && FORWARDED[1] == "tekton.dev/pipelineRun";
    assert FORWARDED[2] == "tekton.dev/pipelineRunUID" && FORWARDED[3] == "tekton.dev/pipelineTask";
    assert FORWARDED[4] == "tekton.dev/memberOf";
  }

  /** The labels of the TaskRun: found again under the CustomRun's name whatever labels the run had. */
  method Labels(name: string, runLabels: map<string, string>) returns (labels: map<string, string>)
    ensures TRACKING in labels && labels[TRACKING] == name
    ensures MANAGED in labels && labels[MANAGED] == "remote-task-controller"
    ensures forall k | k in FORWARDED :: (k in labels <==> k in runLabels) && (k in labels ==> labels[k] == runLabels[k])
    ensures forall k | k in labels :: k == TRACKING || k == MANAGED || k in FORWARDED
    ensures forall k :: k in labels <==>
      k == "remotetask-customrun" || k == "app.kubernetes.io/managed-by" || (Pipelined(k) && k in runLabels)
    ensures labels["remotetask-customrun"] == name && labels["app.kubernetes.io/managed-by"] == "remote-task-controller"
    ensures forall k :: Pipelined(k) && k in labels ==> labels[k] == runLabels[k]
  {
    forall k ensures k in FORWARDED <==> Pipelined(k) { ForwardedIff(k); }
    var extra := map[TRACKING := name];
    assert TRACKING !in FORWARDED && MANAGED !in FORWARDED by {
      assert forall k | k in FORWARDED :: k[0] == 't';
    }
    for i := 0 to |FORWARDED|
      invariant TRACKING in extra && extra[TRACKING] == name
      invariant forall j | 0 <= j < i && FORWARDED[j] in runLabels ::
        FORWARDED[j] in extra && extra[FORWARDED[j]] == runLabels[FORWARDED[j]]
      invariant forall k | k in extra :: k == TRACKING || (k in FORWARDED && k in runLabels && extra[k] == runLabels[k])
    {
      var key := FORWARDED[i];
      if key in runLabels {
        extra := extra[key := runLabels[key]];
      }
    }
    labels := map[MANAGED := "remote-task-controller"] + extra;
    assert MANAGED[0] != TRACKING[0];
  }
}
