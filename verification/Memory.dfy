/** src/plan.rs, values.memory.json: onceshell over any sequence of plan runs. */
module Memory {
  import opened Prelude
  import opened Json
  import opened Text
  import opened Template
  import opened Values

  // ── the invariant ────────────────────────────────────────────────────────

  predicate Remembers(memory: map<string, Json>, e: Exec) {
    CacheKey(e.cmd) in memory && memory[CacheKey(e.cmd)] == Str(e.out)
  }

  // Every successful execution is remembered on disk, and none happened twice.
  ghost predicate Memo(st: State) {
    && (forall i | 0 <= i < |st.log| :: Remembers(Loaded(st.disk), st.log[i]))
    && (forall i, j | 0 <= i < j < |st.log| :: st.log[i].cmd != st.log[j].cmd)
  }

  // While a run resolves, the memory of the process is the one on disk.
  ghost predicate Running(st: State) {
    Memo(st) && Loaded(st.disk) == st.memory
  }

  // Entries stay as they are; only a non-text under an executed command's key may be replaced.
  ghost predicate Keeps(before: map<string, Json>, after: map<string, Json>, log: seq<Exec>) {
    forall k | k in before ::
      k in after && (after[k] == before[k] || (!before[k].Str? && exists e | e in log :: k == CacheKey(e.cmd)))
  }

  lemma {:induction false} CacheKeysDiffer(a: string, b: string)
    requires a != b
    ensures CacheKey(a) != CacheKey(b)
  {
    assert CacheKey(a)[|"onceshell:"|..] == a && CacheKey(b)[|"onceshell:"|..] == b;
  }

  lemma {:induction false} KeepsOn(a: map<string, Json>, b: map<string, Json>, c: map<string, Json>, log: seq<Exec>, log': seq<Exec>)
    requires Keeps(a, b, log) && Keeps(b, c, log') && log <= log'
    ensures Keeps(a, c, log')
  {
    forall e | e in log ensures e in log' {
      var i :| 0 <= i < |log| && log[i] == e;
      assert log'[i] == e;
    }
  }

  // A step of a run: the invariant holds on, nothing is forgotten.
  ghost predicate Advances(st: State, st': State) {
    Running(st') && st.log <= st'.log && Keeps(st.memory, st'.memory, st'.log)
  }

  lemma {:induction false} RunOnceAdvances(o: Outside, cmd: string, st: State)
    requires Running(st)
    ensures var (r, st') := RunOnce(o, cmd, st);
      Advances(st, st') && (r.Ok? ==> Cached(st'.memory, cmd).Some? && r.value == Concrete(Cached(st'.memory, cmd).value))
  {
    var (r, st') := RunOnce(o, cmd, st);
    if Cached(st.memory, cmd).None? && o.sh(cmd, st.attempts).Some? {
      var n := |st.log|;
      forall i | 0 <= i < n
        ensures st.log[i].cmd != cmd && Remembers(st'.memory, st'.log[i])
      {
        assert Remembers(st.memory, st.log[i]);
        CacheKeysDiffer(st.log[i].cmd, cmd);
      }
      assert st'.log[n].cmd == cmd && st'.log[n] in st'.log;
    }
  }

  lemma {:induction false} LeafAdvances(o: Outside, leaf: Values, st: State)
    requires Running(st)
    ensures Advances(st, ResolveLeaf(o, leaf, st).1)
  {
    if leaf.Text? && OnceCommand(leaf.s).Some? {
      RunOnceAdvances(o, OnceCommand(leaf.s).value, st);
    }
  }

  lemma {:induction false} ItemsAdvance(o: Outside, items: seq<Item>, resolved: map<string, ResolvedValue>, st: State)
    requires Running(st)
    ensures Advances(st, ResolveItems(o, items, resolved, st).st)
  {
    if items != [] {
      var (r, st') := ResolveLeaf(o, items[0].leaf, st);
      LeafAdvances(o, items[0].leaf, st);
      if r.Ok? {
        var end := ResolveItems(o, items[1..], resolved[items[0].key := r.value], st').st;
        ItemsAdvance(o, items[1..], resolved[items[0].key := r.value], st');
        KeepsOn(st.memory, st'.memory, end.memory, st'.log, end.log);
      }
    }
  }

  // ── runs ─────────────────────────────────────────────────────────────────

  // One plan run: to its end, or killed after some leaves; what the process remembered is lost.
  datatype Run = Run(o: Outside, backup: Values, values: Values, killed: Option<nat>)

  predicate Passes(run: Run) {
    KeysOf(run.backup, "") == KeysOf(run.values, "") && UnfilledKeys(LeavesOf(run.values, "")) == []
  }

  function AfterRun(st: State, run: Run): State {
    var items := LeavesOf(run.values, "");
    if run.killed.None? then LoadSpec(run.o, run.backup, run.values, st).1
    else if !Passes(run) then st
    else ResolveItems(run.o, if run.killed.value <= |items| then items[..run.killed.value] else items, map[],
                      st.(memory := Loaded(st.disk))).st
  }

  function AfterRuns(st: State, runs: seq<Run>): State
    decreases |runs|
  {
    if runs == [] then st else AfterRuns(AfterRun(st, runs[0]), runs[1..])
  }

  /** A run killed after its last leaf has remembered as much as one that ends; killed before the first, it has
      done nothing. */
  lemma {:induction false} KilledRuns(st: State, run: Run)
    requires Memo(st) && run.killed.None? && LoadSpec(run.o, run.backup, run.values, st).0.Ok?
    ensures var (whole, n) := (AfterRun(st, run), |LeavesOf(run.values, "")|);
      var late := AfterRun(st, run.(killed := Some(n)));
      late.log == whole.log && late.memory == whole.memory && Loaded(late.disk) == Loaded(whole.disk)
    ensures AfterRun(st, run.(killed := Some(0))).log == st.log && AfterRun(st, run.(killed := Some(0))).disk == st.disk
  {
    var items := LeavesOf(run.values, "");
    assert items[..|items|] == items && items[..0] == [];
    ItemsAdvance(run.o, items, map[], st.(memory := Loaded(st.disk)));
  }

  ghost predicate Carries(st: State, st': State) {
    Memo(st') && st.log <= st'.log && Keeps(Loaded(st.disk), Loaded(st'.disk), st'.log)
  }

  lemma {:induction false} RunCarries(st: State, run: Run)
    requires Memo(st)
    ensures Carries(st, AfterRun(st, run))
  {
    var items := LeavesOf(run.values, "");
    var loaded := st.(memory := Loaded(st.disk));
    ItemsAdvance(run.o, items, map[], loaded);
    if run.killed.Some? && run.killed.value <= |items| {
      ItemsAdvance(run.o, items[..run.killed.value], map[], loaded);
    }
  }

  lemma {:induction false} RunsCarry(st: State, runs: seq<Run>)
    requires Memo(st)
    ensures Carries(st, AfterRuns(st, runs))
    decreases |runs|
  {
    if runs != [] {
      var mid := AfterRun(st, runs[0]);
      var end := AfterRuns(st, runs);
      RunCarries(st, runs[0]);
      RunsCarry(mid, runs[1..]);
      KeepsOn(Loaded(st.disk), Loaded(mid.disk), Loaded(end.disk), mid.log, end.log);
    }
  }

  /** Over any sequence of runs, failing or killed part-way, starting from any file: each command succeeds
      at most once, its output is what the file remembers, and other entries are kept. */
  lemma {:induction false} SoundMemory(disk: Disk, runs: seq<Run>)
    ensures var st := AfterRuns(State(map[], disk, 0, []), runs);
      && (forall i, j | 0 <= i < j < |st.log| :: st.log[i].cmd != st.log[j].cmd)
      && (forall i | 0 <= i < |st.log| :: Remembers(Loaded(st.disk), st.log[i]))
      && Keeps(Loaded(disk), Loaded(st.disk), st.log)
  {
    RunsCarry(State(map[], disk, 0, []), runs);
  }

  // ── one value for ever ───────────────────────────────────────────────────

  lemma {:induction false} CachedStays(before: map<string, Json>, after: map<string, Json>, log: seq<Exec>, cmd: string)
    requires Keeps(before, after, log) && Cached(before, cmd).Some?
    ensures Cached(after, cmd) == Cached(before, cmd)
  {
    assert CacheKey(cmd) in before;
  }

  predicate LastUnder(items: seq<Item>, i: nat) {
    i < |items| && forall j | i < j < |items| :: items[j].key != items[i].key
  }

  lemma {:induction false} UntouchedKey(o: Outside, items: seq<Item>, resolved: map<string, ResolvedValue>, st: State, key: string)
    requires key in resolved && forall j | 0 <= j < |items| :: items[j].key != key
    ensures var p := ResolveItems(o, items, resolved, st); key in p.resolved && p.resolved[key] == resolved[key]
  {
    if items != [] {
      var (r, st') := ResolveLeaf(o, items[0].leaf, st);
      if r.Ok? {
        UntouchedKey(o, items[1..], resolved[items[0].key := r.value], st', key);
      }
    }
  }

  lemma {:induction false} OnceLeaf(o: Outside, items: seq<Item>, i: nat, resolved: map<string, ResolvedValue>, st: State)
    requires Running(st) && LastUnder(items, i) && items[i].leaf.Text? && OnceCommand(items[i].leaf.s).Some?
    ensures var p := ResolveItems(o, items, resolved, st);
      p.fault.None? ==>
        var cached := Cached(p.st.memory, OnceCommand(items[i].leaf.s).value);
        cached.Some? && items[i].key in p.resolved && p.resolved[items[i].key] == Concrete(cached.value)
    decreases i
  {
    var (r, st') := ResolveLeaf(o, items[0].leaf, st);
    LeafAdvances(o, items[0].leaf, st);
    if r.Ok? {
      var next := resolved[items[0].key := r.value];
      if i > 0 {
        assert items[1..][i - 1] == items[i];
        assert forall j | i - 1 < j < |items| - 1 :: items[1..][j] == items[j + 1];
        OnceLeaf(o, items[1..], i - 1, next, st');
      } else {
        var cmd := OnceCommand(items[0].leaf.s).value;
        var end := ResolveItems(o, items[1..], next, st').st;
        RunOnceAdvances(o, cmd, st);
        ItemsAdvance(o, items[1..], next, st');
        CachedStays(st'.memory, end.memory, end.log, cmd);
        UntouchedKey(o, items[1..], next, st', items[0].key);
      }
    }
  }

  // The value a successful load gave to a key whose leaf is a onceshell of this command.
  ghost predicate Gave(st: State, run: Run, key: string, cmd: string, value: ResolvedValue) {
    var items := LeavesOf(run.values, "");
    var r := LoadSpec(run.o, run.backup, run.values, st).0;
    && run.killed.None? && r.Ok? && key in r.value && r.value[key] == value
    && exists i: nat :: LastUnder(items, i) && items[i].key == key && items[i].leaf.Text? && OnceCommand(items[i].leaf.s) == Some(cmd)
  }

  lemma {:induction false} GaveCached(st: State, run: Run, key: string, cmd: string, value: ResolvedValue)
    requires Memo(st) && Gave(st, run, key, cmd, value)
    ensures var cached := Cached(Loaded(AfterRun(st, run).disk), cmd); cached.Some? && value == Concrete(cached.value)
  {
    var items := LeavesOf(run.values, "");
    var i: nat :| LastUnder(items, i) && items[i].key == key && items[i].leaf.Text? && OnceCommand(items[i].leaf.s) == Some(cmd);
    OnceLeaf(run.o, items, i, map[], st.(memory := Loaded(st.disk)));
  }

  /** In any two loads that succeed, whatever runs lie between them and whatever the shell would answer by
      then, the same onceshell command stands for the same value. */
  lemma {:induction false} OneValueForever(disk: Disk, before: seq<Run>, first: Run, between: seq<Run>, last: Run,
                                           k: string, k': string, cmd: string, v: ResolvedValue, v': ResolvedValue)
    requires var st := AfterRuns(State(map[], disk, 0, []), before);
      && Gave(st, first, k, cmd, v)
      && Gave(AfterRuns(AfterRun(st, first), between), last, k', cmd, v')
    ensures v == v'
  {
    var st := AfterRuns(State(map[], disk, 0, []), before);
    var mid := AfterRun(st, first);
    var late := AfterRuns(mid, between);
    var end := AfterRun(late, last);
    RunsCarry(State(map[], disk, 0, []), before);
    RunCarries(st, first);
    RunsCarry(mid, between);
    RunCarries(late, last);
    GaveCached(st, first, k, cmd, v);
    GaveCached(late, last, k', cmd, v');
    CachedStays(Loaded(mid.disk), Loaded(late.disk), late.log, cmd);
    CachedStays(Loaded(late.disk), Loaded(end.disk), end.log, cmd);
  }

  /** While a run resolves, the file equals the memory of the process after every leaf. */
  lemma {:induction false} DiskIsMemory(o: Outside, items: seq<Item>, n: nat, st: State)
    requires Running(st) && n <= |items|
    ensures var st' := ResolveItems(o, items[..n], map[], st).st; Loaded(st'.disk) == st'.memory
  {
    ItemsAdvance(o, items[..n], map[], st);
  }
}
