/**
 * `find_project_root`: walk from the working directory towards the
 * filesystem root and stop at the first directory that looks like the
 * OpenMoose checkout.
 */
module ProjectRoot {
  import opened Common

  /** An absolute path as its components below the root; the root itself is `[]`. */
  type Path = seq<string>

  /** `dir.join(rel)` for a relative path given as components. */
  function Join(dir: Path, rel: Path): Path {
    dir + rel
  }

  /** The marker test: `package.json` and either `pnpm-workspace.yaml` or `src/gateway` exist in `dir`. */
  predicate IsProjectRoot(fs: set<Path>, dir: Path): (b: bool)
    ensures b ==> Join(dir, ["package.json"]) in fs
    ensures Join(dir, ["package.json"]) in fs && Join(dir, ["src", "gateway"]) in fs ==> b
    ensures Join(dir, ["package.json"]) in fs && Join(dir, ["pnpm-workspace.yaml"]) in fs ==> b
  {
    && Join(dir, ["package.json"]) in fs
    && (Join(dir, ["pnpm-workspace.yaml"]) in fs || Join(dir, ["src", "gateway"]) in fs)
  }

  /** The nearest ancestor of `dir` (itself included) that passes the marker test. */
  function NearestRoot(fs: set<Path>, dir: Path): Option<Path>
    decreases |dir|
  {
    if IsProjectRoot(fs, dir) then Some(dir)
    else if dir == [] then None
    else NearestRoot(fs, dir[..|dir| - 1])
  }

  /**
   * NearestRoot finds an ancestor that passes the test and no nearer
   * ancestor passes it; when it finds none, no ancestor up to the root passes.
   */
  lemma {:induction false} NearestRootIsNearest(fs: set<Path>, dir: Path)
    ensures NearestRoot(fs, dir).Some? ==>
      var root := NearestRoot(fs, dir).value;
      && |root| <= |dir| && root == dir[..|root|]
      && IsProjectRoot(fs, root)
      && forall k :: |root| < k <= |dir| ==> !IsProjectRoot(fs, dir[..k])
    ensures NearestRoot(fs, dir).None? ==> forall k :: 0 <= k <= |dir| ==> !IsProjectRoot(fs, dir[..k])
    decreases |dir|
  {
    if !IsProjectRoot(fs, dir) && dir != [] {
      var parent := dir[..|dir| - 1];
      NearestRootIsNearest(fs, parent);
      forall k | 0 <= k <= |parent|
        ensures dir[..k] == parent[..k]
      {
      }
      assert dir[..|dir|] == dir;
    } else if !IsProjectRoot(fs, dir) {
      assert dir[..0] == dir;
    }
  }

  /**
   * `find_project_root`. `cwd` is `current_dir()`, None when it fails; `fs`
   * is the set of paths that exist. `current.pop()` fails only at the root.
   */
  method FindProjectRoot(cwd: Option<Path>, fs: set<Path>) returns (root: Option<Path>)
    ensures cwd.None? ==> root.None?
    ensures cwd.Some? ==> root == NearestRoot(fs, cwd.value)
  {
    if cwd.None? {
      return None;
    }
    var current := cwd.value;
    while true
      invariant NearestRoot(fs, current) == NearestRoot(fs, cwd.value)
      decreases |current|
    {
      if IsProjectRoot(fs, current) {
        return Some(current);
      }
      if current == [] {
        break;
      }
      current := current[..|current| - 1];
    }
    return None;
  }
}
