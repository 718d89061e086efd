/** src/install_helm_charts.rs, plan_helm_charts: what helm-build/ holds for each cluster, and the .envrc
    the installer finds there. */
module HelmBuild {
  import opened Prelude
  import opened Lookup

  // A directory of platform/ with a resources.toml: its rendered text, and the values files of its
  // remote charts in order, each under its last path component.
  datatype Cluster = Cluster(name: string, rendered: string, values: seq<(string, string)>)

  const RESOURCES: string := "resources.toml"

  // The content of the .envrc a walk up from dir finds.
  function Found(tree: Tree, dir: Path): Option<string> {
    var r := Nearest(tree, dir, []);
    if r.Some? && r.value in tree then Some(tree[r.value]) else None
  }

  // The last file copied under a name.
  function Copied(files: seq<(string, string)>, name: string): Option<string> {
    if files == [] then None
    else if files[|files| - 1].0 == name then Some(files[|files| - 1].1)
    else Copied(files[..|files| - 1], name)
  }

  // What a cluster's directory should hold under a name.
  function FileAt(platform: Tree, c: Cluster, name: string): Option<string> {
    var copied := Copied(c.values, name);
    if copied.Some? then copied
    else if name == ENVRC then Found(platform, [c.name])
    else if name == RESOURCES then Some(c.rendered)
    else None
  }

  // The last values file copied under this name.
  predicate LastCopied(files: seq<(string, string)>, name: string, content: string) {
    exists i :: 0 <= i < |files| && files[i] == (name, content) && forall j :: i < j < |files| ==> files[j].0 != name
  }

  predicate NotCopied(files: seq<(string, string)>, name: string) {
    forall i :: 0 <= i < |files| ==> files[i].0 != name
  }

  lemma {:induction false} CopiedIsLast(files: seq<(string, string)>, name: string)
    ensures Copied(files, name).None? ==> NotCopied(files, name)
    ensures Copied(files, name).Some? ==> LastCopied(files, name, Copied(files, name).value)
    decreases |files|
  {
    if files != [] {
      var n := |files| - 1;
      var front := files[..n];
      CopiedIsLast(front, name);
      assert forall i :: 0 <= i < n ==> files[i] == front[i];
      if files[n].0 == name {
        assert files[n] == (name, files[n].1);
      } else if Copied(front, name).Some? {
        var i :| 0 <= i < n && front[i] == (name, Copied(front, name).value) && forall j :: i < j < n ==> front[j].0 != name;
        assert files[i] == front[i] && forall j :: i < j < |files| ==> j == n || files[j] == front[j];
      }
    }
  }

  // The nearest .envrc to a directory directly below the root: its own, or else the root's.
  predicate Nearby(tree: Tree, dir: string, content: string) {
    || ([dir, ".envrc"] in tree && tree[[dir, ".envrc"]] == content)
    || ([dir, ".envrc"] !in tree && [".envrc"] in tree && tree[[".envrc"]] == content)
  }

  /** What a cluster's directory is to hold: the values files, the last of a name winning, over the nearest .envrc and
      the rendered resources.toml, and nothing else. */
  lemma {:induction false} DirectoryMeans(platform: Tree, c: Cluster, name: string)
    ensures match FileAt(platform, c, name)
      case Some(content) =>
        || LastCopied(c.values, name, content)
        || (NotCopied(c.values, name) && name == ".envrc" && Nearby(platform, c.name, content))
        || (NotCopied(c.values, name) && name == "resources.toml" && content == c.rendered)
      case None =>
        && NotCopied(c.values, name) && name != "resources.toml"
        && (name == ".envrc" ==> [c.name, ".envrc"] !in platform && [".envrc"] !in platform)
  {
    CopiedIsLast(c.values, name);
    assert [c.name] + [ENVRC] == [c.name, ".envrc"] && [] + [ENVRC] == [".envrc"];
    assert [c.name][..0] == [];
    assert Nearest(platform, [], []) == if [ENVRC] in platform then Some([ENVRC]) else None;
    assert ENVRC[0] != RESOURCES[0];
  }

  function At(tree: Tree, path: Path): Option<string> {
    if path in tree then Some(tree[path]) else None
  }

  ghost predicate DirHolds(platform: Tree, build: Tree, c: Cluster) {
    forall name ::
      && ([c.name, name] in build <==> FileAt(platform, c, name).Some?)
      && ([c.name, name] in build ==> FileAt(platform, c, name) == Some(build[[c.name, name]]))
  }

  // Files lie directly in the directories of the given clusters.
  ghost predicate Flat(build: Tree, clusters: seq<Cluster>) {
    forall path :: path in build ==> |path| == 2 && exists i :: 0 <= i < |clusters| && path[0] == clusters[i].name
  }

  predicate DistinctNames(clusters: seq<Cluster>) {
    forall i, j :: 0 <= i < j < |clusters| ==> clusters[i].name != clusters[j].name
  }

  // What a path leads to once the files were copied into a directory.
  function Over(build: Tree, dir: string, files: seq<(string, string)>, path: Path): Option<string> {
    var copied := if |path| == 2 && path[0] == dir then Copied(files, path[1]) else None;
    if copied.Some? then copied else At(build, path)
  }

  method CopyValues(build: Tree, c: Cluster) returns (out: Tree)
    ensures forall path :: At(out, path) == Over(build, c.name, c.values, path)
  {
    out := build;
    for i := 0 to |c.values|
      invariant forall path :: At(out, path) == Over(build, c.name, c.values[..i], path)
    {
      var (name, content) := c.values[i];
      var next := out[[c.name, name] := content];
      forall path
        ensures At(next, path) == Over(build, c.name, c.values[..i + 1], path)
      {
        assert At(out, path) == Over(build, c.name, c.values[..i], path);
        assert c.values[..i + 1][..i] == c.values[..i];
        assert path == [c.name, name] <==> |path| == 2 && path[0] == c.name && path[1] == name;
      }
      out := next;
    }
    assert c.values[..|c.values|] == c.values;
  }

  lemma {:induction false} FoundIsThere(tree: Tree, dir: Path)
    ensures var r := Nearest(tree, dir, []); r.Some? ==> r.value in tree
  {
    NearestIsDeepest(tree, dir, []);
  }

  /** One cluster: the rendered file, then the .envrc, then the values files, each over what is there. */
  method PlanCluster(platform: Tree, build: Tree, c: Cluster) returns (out: Tree)
    requires forall name :: [c.name, name] !in build
    ensures DirHolds(platform, out, c)
    ensures forall path :: !(|path| == 2 && path[0] == c.name) ==> At(out, path) == At(build, path)
  {
    var dir := [c.name];
    out := build[[c.name, RESOURCES] := c.rendered];
    var envrc := FindEnvrcBounded(platform, dir, []);
    FoundIsThere(platform, dir);
    if envrc.Some? {
      out := out[[c.name, ENVRC] := platform[envrc.value]];
    }
    ghost var before := out;
    out := CopyValues(out, c);
    forall name
      ensures At(out, [c.name, name]) == FileAt(platform, c, name)
    {
      assert [c.name, name][1] == name;
      assert At(out, [c.name, name]) == Over(before, c.name, c.values, [c.name, name]);
    }
  }

  method PlanHelmBuild(platform: Tree, clusters: seq<Cluster>) returns (build: Tree)
    requires DistinctNames(clusters)
    ensures Flat(build, clusters)
    ensures forall i :: 0 <= i < |clusters| ==> DirHolds(platform, build, clusters[i])
  {
    build := map[];
    for i := 0 to |clusters|
      invariant forall path :: path in build ==> |path| == 2 && exists j :: 0 <= j < i && path[0] == clusters[j].name
      invariant forall j :: 0 <= j < i ==> DirHolds(platform, build, clusters[j])
    {
      var next := PlanCluster(platform, build, clusters[i]);
      forall path | path in next
        ensures |path| == 2 && exists j :: 0 <= j < i + 1 && path[0] == clusters[j].name
      {
        assert At(next, path).Some?;
        if !(|path| == 2 && path[0] == clusters[i].name) { assert At(build, path).Some?; }
      }
      forall j | 0 <= j < i ensures DirHolds(platform, next, clusters[j]) {
        assert forall name :: At(next, [clusters[j].name, name]) == At(build, [clusters[j].name, name]);
      }
      build := next;
    }
  }

  /** The installer finds in helm-build/ the .envrc that planning found in platform/, none where there was
      none, exactly when no values file named .envrc with another content was copied over it; and it reads
      the rendered resources.toml exactly when no values file of that name was. */
  lemma {:induction false} HelmLookupAgrees(platform: Tree, build: Tree, clusters: seq<Cluster>, i: nat)
    requires Flat(build, clusters) && i < |clusters| && DirHolds(platform, build, clusters[i])
    ensures var c := clusters[i];
      && (Found(build, [c.name]) == Found(platform, [c.name]) <==>
            Copied(c.values, ENVRC).None? || Copied(c.values, ENVRC) == Found(platform, [c.name]))
      && (At(build, [c.name, RESOURCES]) == Some(c.rendered) <==>
            Copied(c.values, RESOURCES).None? || Copied(c.values, RESOURCES) == Some(c.rendered))
  {
    var c := clusters[i];
    var dir := [c.name];
    assert At(build, [c.name, ENVRC]) == FileAt(platform, c, ENVRC);
    assert At(build, [c.name, RESOURCES]) == FileAt(platform, c, RESOURCES);
    assert dir + [ENVRC] == [c.name, ENVRC] && dir[..|dir| - 1] == [];
    assert [] + [ENVRC] == [ENVRC] && |[ENVRC]| == 1 && [ENVRC] !in build;
    assert Nearest(build, [], []) == None;
    assert Found(build, dir) == At(build, [c.name, ENVRC]);
  }
}
