/** src/plan.rs: flattening values.json, classifying its leaves, and the onceshell memory. */
module Values {
  import opened Prelude
  import opened Json
  import opened Text
  import opened Patterns
  import opened Template

  // values.json: objects in iteration order; numbers, booleans and arrays with their JSON text.
  datatype Values = Node(fields: seq<Field>) | Text(s: string) | Null | Other(shown: string)
  datatype Field = Field(name: string, value: Values)

  function Join(prefix: string, name: string): string {
    if prefix == "" then name else prefix + "." + name
  }

  // ── keys and unfilled leaves ─────────────────────────────────────────────

  function KeysOf(v: Values, prefix: string): set<string>
    decreases v, 1
  {
    if v.Node? then KeysOfFields(v.fields, prefix) else {prefix}
  }

  function KeysOfFields(fields: seq<Field>, prefix: string): set<string>
    decreases fields, 0
  {
    if fields == [] then {}
    else KeysOf(fields[0].value, Join(prefix, fields[0].name)) + KeysOfFields(fields[1..], prefix)
  }

  /** collect_keys adds to the set it is handed. */
  method CollectKeys(v: Values, prefix: string, keys: set<string>) returns (out: set<string>)
    ensures out == keys + KeysOf(v, prefix)
    decreases v
  {
    out := keys;
    match v {
      case Node(fields) =>
        for i := 0 to |fields|
          invariant out + KeysOfFields(fields[i..], prefix) == keys + KeysOfFields(fields, prefix)
        {
          assert fields[i..][1..] == fields[i + 1..];
          out := CollectKeys(fields[i].value, Join(prefix, fields[i].name), out);
        }
        assert fields[|fields|..] == [];
      case _ =>
        out := out + {prefix};
    }
  }

  predicate Placeholder(s: string) {
    Trim(s) == "" || Trim(s) == "CHANGE_ME"
  }

  predicate Unfilled(v: Values) {
    v.Null? || (v.Text? && Placeholder(v.s))
  }

  // A leaf of the tree under its flattened key.
  datatype Item = Item(key: string, leaf: Values)

  function LeavesOf(v: Values, prefix: string): seq<Item>
    decreases v, 1
  {
    if v.Node? then LeavesOfFields(v.fields, prefix) else [Item(prefix, v)]
  }

  function LeavesOfFields(fields: seq<Field>, prefix: string): seq<Item>
    decreases fields, 0
  {
    if fields == [] then []
    else LeavesOf(fields[0].value, Join(prefix, fields[0].name)) + LeavesOfFields(fields[1..], prefix)
  }

  function UnfilledKeys(items: seq<Item>): seq<string> {
    if items == [] then []
    else (if Unfilled(items[0].leaf) then [items[0].key] else []) + UnfilledKeys(items[1..])
  }

  lemma {:induction false} UnfilledAppend(a: seq<Item>, b: seq<Item>)
    ensures UnfilledKeys(a + b) == UnfilledKeys(a) + UnfilledKeys(b)
  {
    if a == [] {
      assert a + b == b;
    } else {
      assert (a + b)[1..] == a[1..] + b;
      UnfilledAppend(a[1..], b);
    }
  }

  // The source's test, with its repeated exclusions.
  predicate Flagged(s: string) {
    var t := Trim(s);
    && (t == "" || t == "CHANGE_ME")
    && !("shell(" <= t) && !("onceshell(" <= t) && !("file(" <= t) && !("vault(" <= t)
    && !Contains(t, "$")
  }

  // The exclusions never apply to a blank or CHANGE_ME text.
  lemma {:induction false} FlaggedIff(s: string)
    ensures Flagged(s) <==> Placeholder(s)
  {
    var t := Trim(s);
    if t == "CHANGE_ME" {
      assert t[0] != "shell("[0] && t[0] != "onceshell("[0] && t[0] != "file("[0] && t[0] != "vault("[0];
      assert forall i :: 0 <= i <= |t| - 1 ==> t[i..][0] == t[i] != "$"[0];
    }
  }

  lemma {:induction false} UnfilledStep(fields: seq<Field>, i: nat, prefix: string)
    requires i < |fields|
    ensures UnfilledKeys(LeavesOfFields(fields[i..], prefix))
         == UnfilledKeys(LeavesOf(fields[i].value, Join(prefix, fields[i].name))) + UnfilledKeys(LeavesOfFields(fields[i + 1..], prefix))
  {
    assert fields[i..][1..] == fields[i + 1..];
    UnfilledAppend(LeavesOf(fields[i].value, Join(prefix, fields[i].name)), LeavesOfFields(fields[i + 1..], prefix));
  }

  lemma {:induction false} Regroup<T>(out: seq<T>, a: seq<T>, b: seq<T>)
    ensures out + (a + b) == out + a + b
  {
  }

  /** check_unfilled appends the offending keys in order. */
  method CheckUnfilled(v: Values, prefix: string, unfilled: seq<string>) returns (out: seq<string>)
    ensures out == unfilled + UnfilledKeys(LeavesOf(v, prefix))
    decreases v
  {
    out := unfilled;
    match v {
      case Node(fields) =>
        for i := 0 to |fields|
          invariant out + UnfilledKeys(LeavesOfFields(fields[i..], prefix))
                 == unfilled + UnfilledKeys(LeavesOfFields(fields, prefix))
        {
          UnfilledStep(fields, i, prefix);
          var key := Join(prefix, fields[i].name);
          Regroup(out, UnfilledKeys(LeavesOf(fields[i].value, key)), UnfilledKeys(LeavesOfFields(fields[i + 1..], prefix)));
          out := CheckUnfilled(fields[i].value, key, out);
        }
        assert fields[|fields|..] == [] && out + [] == out;
      case Null =>
        out := out + [prefix];
      case Text(s) =>
        FlaggedIff(s);
        if Flagged(s) {
          out := out + [prefix];
        }
      case Other(_) =>
    }
  }

  function KeySet(items: seq<Item>): set<string> {
    set i | 0 <= i < |items| :: items[i].key
  }

  lemma {:induction false} KeySetAppend(a: seq<Item>, b: seq<Item>)
    ensures KeySet(a + b) == KeySet(a) + KeySet(b)
  {
    assert forall i :: 0 <= i < |b| ==> (a + b)[|a| + i] == b[i];
    assert forall i :: 0 <= i < |a| ==> (a + b)[i] == a[i];
  }

  /** The keys collected are the keys of the leaves. */
  lemma {:induction false} KeysAreLeaves(v: Values, prefix: string)
    ensures KeySet(LeavesOf(v, prefix)) == KeysOf(v, prefix)
    decreases v, 1
  {
    if v.Node? {
      KeysAreLeavesOfFields(v.fields, prefix);
    } else {
      assert LeavesOf(v, prefix)[0].key == prefix;
    }
  }

  lemma {:induction false} KeysAreLeavesOfFields(fields: seq<Field>, prefix: string)
    ensures KeySet(LeavesOfFields(fields, prefix)) == KeysOfFields(fields, prefix)
    decreases fields, 0
  {
    if fields != [] {
      var key := Join(prefix, fields[0].name);
      KeysAreLeaves(fields[0].value, key);
      KeysAreLeavesOfFields(fields[1..], prefix);
      KeySetAppend(LeavesOf(fields[0].value, key), LeavesOfFields(fields[1..], prefix));
    }
  }

  // ── resolving one leaf ───────────────────────────────────────────────────

  // values.memory.json as found on disk; anything but an object reads as empty.
  datatype Disk = NoFile | Garbage | Saved(memory: map<string, Json>)

  function Loaded(disk: Disk): map<string, Json> {
    if disk.Saved? then disk.memory else map[]
  }

  // A successful execution of a onceshell command.
  datatype Exec = Exec(cmd: string, out: string)

  // The world of a planning process; attempts counts every execution, log the successful ones.
  datatype State = State(memory: map<string, Json>, disk: Disk, attempts: nat, log: seq<Exec>)

  // Command outcomes may differ from attempt to attempt.
  datatype Outside = Outside(sh: (string, nat) -> Option<string>, files: map<string, string>, env: map<string, string>)

  datatype Fault =
    | KeysDiffer(missing: set<string>, extra: set<string>)
    | StillUnfilled(keys: seq<string>)
    | OnceFailed(cmd: string)
    | Unreadable(path: string)
    | NoSuchVariable(names: seq<string>)

  function StripWrapper(s: string, prefix: string): Option<string> {
    if prefix <= s && |prefix| < |s| && s[|s| - 1] == ')' then Some(s[|prefix|..|s| - 1]) else None
  }

  const ONCE: string := "onceshell("

  function CacheKey(cmd: string): string {
    "onceshell:" + cmd
  }

  function Cached(memory: map<string, Json>, cmd: string): Option<string> {
    if CacheKey(cmd) in memory then AsStr(Some(memory[CacheKey(cmd)])) else None
  }

  function Unset(env: map<string, string>, caps: seq<Cap>): seq<string> {
    if caps == [] then []
    else (if caps[0].name in env then [] else [caps[0].name]) + Unset(env, caps[1..])
  }

  function EnvValue(env: map<string, string>): Cap -> string {
    (cap: Cap) => if cap.name in env then env[cap.name] else ""
  }

  function Interpolate(o: Outside, raw: string): Result<ResolvedValue, Fault> {
    var caps := Captures(EnvRef, raw);
    if caps == [] then Ok(Concrete(raw))
    else if Unset(o.env, caps) != [] then Err(NoSuchVariable(Unset(o.env, caps)))
    else Ok(Concrete(ReplaceAll(EnvRef, EnvValue(o.env), raw)))
  }

  function RunOnce(o: Outside, cmd: string, st: State): (Result<ResolvedValue, Fault>, State) {
    var cached := Cached(st.memory, cmd);
    if cached.Some? then (Ok(Concrete(cached.value)), st) else
      var out := o.sh(cmd, st.attempts);
      if out.None? then (Err(OnceFailed(cmd)), st.(attempts := st.attempts + 1)) else
        var memory := st.memory[CacheKey(cmd) := Str(out.value)];
        (Ok(Concrete(out.value)), State(memory, Saved(memory), st.attempts + 1, st.log + [Exec(cmd, out.value)]))
  }

  // resolve_value without onceshell: no state is involved.
  function ResolvePlain(o: Outside, raw: string): Result<ResolvedValue, Fault> {
    if StripWrapper(raw, "shell(").Some? then Ok(Shell(StripWrapper(raw, "shell(").value))
    else if StripWrapper(raw, "file(").Some? then
      var path := Trim(StripWrapper(raw, "file(").value);
      if path in o.files then Ok(Concrete(o.files[path])) else Err(Unreadable(path))
    else if StripWrapper(raw, "vault(").Some? then Ok(Vault(StripWrapper(raw, "vault(").value))
    else Interpolate(o, raw)
  }

  function OnceCommand(raw: string): Option<string> {
    StripWrapper(Trim(raw), ONCE)
  }

  function ResolveLeaf(o: Outside, leaf: Values, st: State): (Result<ResolvedValue, Fault>, State) {
    match leaf
    case Text(s) =>
      if OnceCommand(s).Some? then RunOnce(o, OnceCommand(s).value, st) else (ResolvePlain(o, Trim(s)), st)
    case Null => (Ok(Concrete("null")), st)
    case Other(shown) => (Ok(Concrete(shown)), st)
    case Node(_) => (Ok(Concrete("")), st)
  }

  lemma {:induction false} WrappersExclude(s: string)
    ensures StripWrapper(s, ONCE).Some? ==> StripWrapper(s, "shell(").None?
  {
    assert ONCE <= s ==> s[0] == ONCE[0];
    assert "shell(" <= s ==> s[0] == "shell("[0];
  }

  // ── resolving a tree ─────────────────────────────────────────────────────

  datatype Progress = Progress(resolved: map<string, ResolvedValue>, fault: Option<Fault>, st: State)

  // The leaves resolved in order, up to the first fault.
  function ResolveItems(o: Outside, items: seq<Item>, resolved: map<string, ResolvedValue>, st: State): Progress {
    if items == [] then Progress(resolved, None, st) else
      var (r, st') := ResolveLeaf(o, items[0].leaf, st);
      match r
      case Err(fault) => Progress(resolved, Some(fault), st')
      case Ok(value) => ResolveItems(o, items[1..], resolved[items[0].key := value], st')
  }

  lemma {:induction false} ResolveAppend(o: Outside, a: seq<Item>, b: seq<Item>, resolved: map<string, ResolvedValue>, st: State)
    ensures var p := ResolveItems(o, a, resolved, st);
      ResolveItems(o, a + b, resolved, st) == if p.fault.Some? then p else ResolveItems(o, b, p.resolved, p.st)
  {
    if a == [] {
      assert a + b == b;
    } else {
      assert (a + b)[1..] == a[1..] + b;
      var (r, st') := ResolveLeaf(o, a[0].leaf, st);
      if r.Ok? {
        ResolveAppend(o, a[1..], b, resolved[a[0].key := r.value], st');
      }
    }
  }

  /** Successful resolution adds exactly the keys of the leaves. */
  lemma {:induction false} ResolvedKeys(o: Outside, items: seq<Item>, resolved: map<string, ResolvedValue>, st: State)
    ensures var p := ResolveItems(o, items, resolved, st);
      p.fault.None? ==> p.resolved.Keys == resolved.Keys + KeySet(items)
  {
    if items != [] {
      var (r, st') := ResolveLeaf(o, items[0].leaf, st);
      if r.Ok? {
        ResolvedKeys(o, items[1..], resolved[items[0].key := r.value], st');
        KeySetAppend([items[0]], items[1..]);
        assert [items[0]] + items[1..] == items;
        assert KeySet([items[0]]) == {items[0].key} by {
          assert [items[0]][0].key == items[0].key;
        }
      }
    }
  }

  lemma {:induction false} ResolveOne(o: Outside, item: Item, resolved: map<string, ResolvedValue>, st: State)
    ensures var (r, st') := ResolveLeaf(o, item.leaf, st);
      ResolveItems(o, [item], resolved, st) ==
        if r.Err? then Progress(resolved, Some(r.error), st') else Progress(resolved[item.key := r.value], None, st')
  {
    assert [item][1..] == [];
  }

  // ── loading ──────────────────────────────────────────────────────────────

  // The whole of load_and_resolve_values, and the state it leaves behind.
  function LoadSpec(o: Outside, backup: Values, values: Values, st: State): (Result<map<string, ResolvedValue>, Fault>, State) {
    var (wanted, given) := (KeysOf(backup, ""), KeysOf(values, ""));
    var items := LeavesOf(values, "");
    if wanted != given then (Err(KeysDiffer(wanted - given, given - wanted)), st)
    else if UnfilledKeys(items) != [] then (Err(StillUnfilled(UnfilledKeys(items))), st)
    else
      var p := ResolveItems(o, items, map[], st.(memory := Loaded(st.disk)));
      if p.fault.Some? then (Err(p.fault.value), p.st) else (Ok(p.resolved), p.st.(disk := Saved(p.st.memory)))
  }

  class Planner {
    var memory: map<string, Json>
    var disk: Disk
    var attempts: nat
    ghost var log: seq<Exec>

    ghost function View(): State
      reads this
    {
      State(memory, disk, attempts, log)
    }

    constructor (disk: Disk)
      ensures View() == State(map[], disk, 0, [])
    {
      memory, this.disk, attempts, log := map[], disk, 0, [];
    }

    method RunShell(o: Outside, cmd: string) returns (out: Option<string>)
      modifies this`attempts
      ensures out == o.sh(cmd, old(attempts)) && attempts == old(attempts) + 1
    {
      out := o.sh(cmd, attempts);
      attempts := attempts + 1;
    }

    /** resolve_value: a onceshell result is on disk before anything else happens. */
    method ResolveValue(o: Outside, text: string) returns (r: Result<ResolvedValue, Fault>)
      modifies this
      ensures (r, View()) == ResolveLeaf(o, Text(text), old(View()))
    {
      var raw := Trim(text);
      WrappersExclude(raw);
      var cmd := StripWrapper(raw, "shell(");
      if cmd.Some? { return Ok(Shell(cmd.value)); }
      cmd := StripWrapper(raw, ONCE);
      if cmd.Some? {
        var cached := Cached(memory, cmd.value);
        if cached.Some? { return Ok(Concrete(cached.value)); }
        var out := RunShell(o, cmd.value);
        if out.None? { return Err(OnceFailed(cmd.value)); }
        memory := memory[CacheKey(cmd.value) := Str(out.value)];
        disk := Saved(memory);
        log := log + [Exec(cmd.value, out.value)];
        return Ok(Concrete(out.value));
      }
      r := ResolvePlain(o, raw);
    }

    /** resolve_recursive inserts into the map it is handed. */
    method ResolveRecursive(o: Outside, v: Values, prefix: string, resolved: map<string, ResolvedValue>)
      returns (out: map<string, ResolvedValue>, fault: Option<Fault>)
      modifies this
      ensures Progress(out, fault, View()) == ResolveItems(o, LeavesOf(v, prefix), resolved, old(View()))
      decreases v
    {
      out, fault := resolved, None;
      if !v.Node? { ResolveOne(o, Item(prefix, v), resolved, View()); }
      match v {
        case Node(fields) =>
          for i := 0 to |fields|
            invariant fault.None?
            invariant ResolveItems(o, LeavesOfFields(fields, prefix), resolved, old(View()))
                   == ResolveItems(o, LeavesOfFields(fields[i..], prefix), out, View())
          {
            assert fields[i..][1..] == fields[i + 1..];
            var key := Join(prefix, fields[i].name);
            ResolveAppend(o, LeavesOf(fields[i].value, key), LeavesOfFields(fields[i + 1..], prefix), out, View());
            out, fault := ResolveRecursive(o, fields[i].value, key, out);
            if fault.Some? { return; }
          }
          assert fields[|fields|..] == [];
        case Text(s) =>
          var r := ResolveValue(o, s);
          if r.Err? { fault := Some(r.error); return; }
          out := out[prefix := r.value];
        case Null => out := out[prefix := Concrete("null")];
        case Other(shown) => out := out[prefix := Concrete(shown)];
      }
    }

    /** load_and_resolve_values on two parsed documents. */
    method LoadAndResolve(o: Outside, backup: Values, values: Values) returns (r: Result<map<string, ResolvedValue>, Fault>)
      modifies this
      ensures (r, View()) == LoadSpec(o, backup, values, old(View()))
    {
      var wanted := CollectKeys(backup, "", {});
      var given := CollectKeys(values, "", {});
      assert wanted == KeysOf(backup, "") && given == KeysOf(values, "");
      var missing, extra := wanted - given, given - wanted;
      if missing != {} || extra != {} {
        assert wanted != given;
        return Err(KeysDiffer(missing, extra));
      }
      SameKeys(wanted, given);
      var unfilled := CheckUnfilled(values, "", []);
      assert [] + UnfilledKeys(LeavesOf(values, "")) == UnfilledKeys(LeavesOf(values, ""));
      if unfilled != [] { return Err(StillUnfilled(unfilled)); }
      memory := Loaded(disk);
      var resolved, fault := ResolveRecursive(o, values, "", map[]);
      if fault.Some? { return Err(fault.value); }
      disk := Saved(memory);
      r := Ok(resolved);
    }
  }

  lemma {:induction false} SameKeys(a: set<string>, b: set<string>)
    requires a - b == {} && b - a == {}
    ensures a == b
  {
    forall k ensures k in a <==> k in b {
      assert k !in a - b && k !in b - a;
    }
  }

  lemma {:induction false} NoneUnfilled(items: seq<Item>)
    ensures UnfilledKeys(items) == [] <==> forall i :: 0 <= i < |items| ==> !Unfilled(items[i].leaf)
  {
    if items != [] {
      NoneUnfilled(items[1..]);
      assert forall i :: 1 <= i < |items| ==> items[i] == items[1..][i - 1];
    }
  }

  /** A load that succeeds yields exactly the keys of both files, and no leaf it accepted is null, blank or
      CHANGE_ME; a load that fails on keys or on unfilled leaves has executed and written nothing. */
  lemma {:induction false} LoadedKeys(o: Outside, backup: Values, values: Values, st: State)
    ensures var (r, st') := LoadSpec(o, backup, values, st);
      && (r.Ok? ==>
            && r.value.Keys == KeysOf(values, "") == KeysOf(backup, "")
            && (forall i :: 0 <= i < |LeavesOf(values, "")| ==> !Unfilled(LeavesOf(values, "")[i].leaf))
            && st'.disk == Saved(st'.memory))
      && (KeysOf(values, "") != KeysOf(backup, "") ==> r.Err? && r.error.KeysDiffer? && st' == st)
      && (KeysOf(values, "") == KeysOf(backup, "") &&
          (exists i :: 0 <= i < |LeavesOf(values, "")| && Unfilled(LeavesOf(values, "")[i].leaf)) ==>
            r.Err? && r.error.StillUnfilled? && st' == st)
  {
    var items := LeavesOf(values, "");
    NoneUnfilled(items);
    KeysAreLeaves(values, "");
    ResolvedKeys(o, items, map[], st.(memory := Loaded(st.disk)));
  }
}
