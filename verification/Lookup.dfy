/** src/run_dry_run.rs, find_envrc_bounded: the nearest .envrc between a directory and a ceiling. */
module Lookup {
  import opened Prelude

  // Canonical paths by component; a tree of regular files by path.
  type Path = seq<string>
  type Tree = map<Path, string>

  const ENVRC: string := ".envrc"

  function Nearest(tree: Tree, dir: Path, ceiling: Path): Option<Path>
    decreases |dir|
  {
    if !(ceiling <= dir) then None
    else if dir + [ENVRC] in tree then Some(dir + [ENVRC])
    else if dir == ceiling then None
    else Nearest(tree, dir[..|dir| - 1], ceiling)
  }

  /** The walk up from start, never above ceiling. */
  method FindEnvrcBounded(tree: Tree, start: Path, ceiling: Path) returns (found: Option<Path>)
    ensures found == Nearest(tree, start, ceiling)
  {
    var dir := start;
    while true
      invariant Nearest(tree, start, ceiling) == Nearest(tree, dir, ceiling)
      decreases |dir|
    {
      if !(ceiling <= dir) { return None; }
      var candidate := dir + [ENVRC];
      if candidate in tree { return Some(candidate); }
      if dir == ceiling { return None; }
      if dir == [] { return None; }
      dir := dir[..|dir| - 1];
    }
  }

  // The directory k components below the root on the way to start holds an .envrc.
  predicate Holds(tree: Tree, start: Path, k: nat) {
    k <= |start| && start[..k] + [ENVRC] in tree
  }

  /** The walk finds the deepest .envrc between start and ceiling, and none exactly when there
      is none, or when start does not lie below the ceiling. */
  lemma {:induction false} NearestIsDeepest(tree: Tree, start: Path, ceiling: Path)
    ensures var r := Nearest(tree, start, ceiling);
      && (!(ceiling <= start) ==> r.None?)
      && (ceiling <= start ==> (r.None? <==> forall k: nat :: |ceiling| <= k <= |start| ==> !Holds(tree, start, k)))
      && (r.Some? ==>
            var depth := |r.value| - 1;
            && |ceiling| <= depth <= |start| && r.value == start[..depth] + [ENVRC] && Holds(tree, start, depth)
            && forall k: nat :: depth < k <= |start| ==> !Holds(tree, start, k))
    decreases |start|
  {
    if ceiling <= start {
      assert start[..|start|] == start;
      if start + [ENVRC] in tree {
        assert Holds(tree, start, |start|);
      } else if start != ceiling {
        var up := start[..|start| - 1];
        assert ceiling <= up by {
          assert up[..|ceiling|] == start[..|ceiling|];
        }
        NearestIsDeepest(tree, up, ceiling);
        assert forall k: nat :: k <= |up| ==> up[..k] == start[..k];
        assert forall k: nat :: k <= |up| ==> (Holds(tree, up, k) <==> Holds(tree, start, k));
      }
    }
  }

  /** Two trees that agree on their .envrc files agree on every lookup and its content. */
  lemma {:induction false} SameEnvrcSameLookup(a: Tree, b: Tree, start: Path, ceiling: Path)
    requires forall dir: Path :: (dir + [ENVRC] in a <==> dir + [ENVRC] in b)
    requires forall dir: Path :: dir + [ENVRC] in a ==> a[dir + [ENVRC]] == b[dir + [ENVRC]]
    ensures Nearest(a, start, ceiling) == Nearest(b, start, ceiling)
    ensures var r := Nearest(a, start, ceiling); r.Some? ==> r.value in a && r.value in b && a[r.value] == b[r.value]
    decreases |start|
  {
    if ceiling <= start && start + [ENVRC] !in a && start != ceiling {
      SameEnvrcSameLookup(a, b, start[..|start| - 1], ceiling);
    }
  }
}
