/** The generated project directory and the three removal primitives of the
    post-generation hook: `remove_file`, `remove_dir` and
    `remove_files_by_pattern`. */
module FileTree {
  import opened Wrappers
  import Glob

  /** A path relative to the project root, one string per component:
      `src/pull_fred.py` is ["src", "pull_fred.py"]. */
  type Path = seq<string>

  datatype Kind = File | Dir

  /** The project as a finite map from each existing path to its kind. */
  type Tree = map<Path, Kind>

  /** What a removal can raise. `os.remove` on a directory raises
      (IsADirectoryError on Linux, PermissionError on macOS); a pattern
      removal raises it on whichever matching directory `os.listdir` lists
      first, so the summary names only the listed directory and the
      pattern. */
  datatype FsError =
    | IsADirectory(path: Path)
    | DirectoryMatched(dir: Path, pattern: string)

  /** `p` is `d` itself or lies somewhere below it. */
  predicate Within(p: Path, d: Path) {
    |d| <= |p| && p[..|d|] == d
  }

  /** `p` is an entry directly inside `d`: one that `os.listdir(d)` reports. */
  predicate ChildOf(p: Path, d: Path) {
    |p| == |d| + 1 && p[..|d|] == d
  }

  /** The last component of a path, the file name `os.listdir` returns. */
  function Name(p: Path): string
    requires |p| > 0
  {
    p[|p| - 1]
  }

  predicate IsDir(t: Tree, p: Path) {
    p in t && t[p] == Dir
  }

  predicate IsFile(t: Tree, p: Path) {
    p in t && t[p] == File
  }

  /** What every real directory tree satisfies: no empty path, and the parent
      of every nested entry is a directory of the tree. */
  predicate WellFormed(t: Tree) {
    forall p {:trigger Entry(t, p)} | p in t :: |p| > 0 && (|p| > 1 ==> IsDir(t, p[..|p| - 1]))
  }

  /** `p` is an entry of `t`. `WellFormed` speaks through this name so that
      its fact about an entry's parent is used only where a proof asks for
      it (through `Rooted`), instead of climbing every path to the root. */
  predicate Entry(t: Tree, p: Path) {
    p in t
  }

  lemma Rooted(t: Tree, p: Path)
    requires WellFormed(t) && p in t
    ensures |p| > 0 && (|p| > 1 ==> IsDir(t, p[..|p| - 1]))
  {
    assert Entry(t, p);
  }

  /** `u` is `t` with some entries dropped and no kind changed. */
  predicate Shrinks(u: Tree, t: Tree) {
    forall p | p in u :: p in t && u[p] == t[p]
  }

  /** `remove_file`: a no-op on an absent path, removes a file, raises on a
      directory. */
  function RemoveFile(t: Tree, p: Path): (r: Result<Tree, FsError>)
    ensures p !in t ==> r == Success(t)
    ensures r.Failure? <==> IsDir(t, p)
    ensures r.Failure? ==> r.error == IsADirectory(p)
    ensures r.Success? ==> r.value.Keys == t.Keys - {p} && Shrinks(r.value, t)
  {
    if p !in t then Success(t)
    else if t[p] == Dir then Failure(IsADirectory(p))
    else Success(t - {p})
  }

  /** `remove_dir`: when `d` is a directory, drops it and everything below it
      (`shutil.rmtree`); otherwise (absent, or a plain file) nothing happens. */
  function RemoveDir(t: Tree, d: Path): (r: Tree)
    ensures !IsDir(t, d) ==> r == t
    ensures IsDir(t, d) ==> forall p :: p in r <==> p in t && !Within(p, d)
    ensures Shrinks(r, t)
  {
    if IsDir(t, d) then map p | p in t && !Within(p, d) :: t[p] else t
  }

  /** The entries directly inside `d` whose name matches `pattern`. */
  predicate MatchedChild(p: Path, d: Path, pattern: string) {
    ChildOf(p, d) && Glob.Match(pattern, Name(p))
  }

  /** `remove_files_by_pattern`, summarised independently of listing order:
      nothing happens unless `d` is a directory; otherwise every direct child
      whose name matches is removed, and the call raises if one of them is a
      directory. Deeper entries are never looked at. */
  function RemoveMatching(t: Tree, d: Path, pattern: string): (r: Result<Tree, FsError>)
    ensures !IsDir(t, d) ==> r == Success(t)
    ensures r.Failure? <==> IsDir(t, d) && exists p | p in t :: MatchedChild(p, d, pattern) && t[p] == Dir
    ensures r.Success? ==> Shrinks(r.value, t)
    ensures r.Success? ==> forall p :: p in r.value <==> p in t && !(IsDir(t, d) && MatchedChild(p, d, pattern))
  {
    if !IsDir(t, d) then Success(t)
    else if exists p | p in t :: MatchedChild(p, d, pattern) && t[p] == Dir then
      Failure(DirectoryMatched(d, pattern))
    else
      Success(map p | p in t && !MatchedChild(p, d, pattern) :: t[p])
  }

  /** `listing` is what `os.listdir(d)` returns: the names of the entries
      directly inside `d`, each exactly once, in some order. */
  predicate Listing(t: Tree, d: Path, listing: seq<string>) {
    && (forall k | 0 <= k < |listing| :: d + [listing[k]] in t)
    && (forall p | p in t && ChildOf(p, d) :: Name(p) in listing)
    && (forall j, k | 0 <= j < k < |listing| :: listing[j] != listing[k])
  }

  /** `remove_files_by_pattern` as written: walk the listing in order and call
      `remove_file` on each matching name. Its effect is the order-free
      summary `RemoveMatching`; when it raises, it names the first matching
      directory in the listing. */
  method RemoveFilesByPattern(t: Tree, d: Path, pattern: string, listing: seq<string>)
    returns (r: Result<Tree, FsError>)
    requires IsDir(t, d) ==> Listing(t, d, listing)
    ensures r.Success? <==> RemoveMatching(t, d, pattern).Success?
    ensures r.Success? ==> r == RemoveMatching(t, d, pattern)
    ensures r.Failure? ==> exists k | 0 <= k < |listing| ::
      && r.error == IsADirectory(d + [listing[k]])
      && Glob.Match(pattern, listing[k]) && IsDir(t, d + [listing[k]])
      && forall j | 0 <= j < k :: !(Glob.Match(pattern, listing[j]) && IsDir(t, d + [listing[j]]))
  {
    if !IsDir(t, d) {
      return Success(t);
    }
    var u := t;
    var k := 0;
    var done: seq<string> := [];
    while k < |listing|
      invariant 0 <= k <= |listing| && done == listing[..k]
      invariant forall j | 0 <= j < k :: !(Glob.Match(pattern, listing[j]) && IsDir(t, d + [listing[j]]))
      invariant Shrinks(u, t)
      invariant RemovedUpTo(t, u, d, pattern, done)
    {
      NotYetListed(listing, k);
      var step := VisitName(t, u, d, pattern, done, listing[k]);
      if step.Failure? {
        return step;
      }
      u := step.value;
      done := done + [listing[k]];
      k := k + 1;
    }
    AllMatchesRemoved(t, u, d, pattern, listing);
    return Success(u);
  }

  /** One turn of the walk: `remove_file` on the next listed name if it
      matches, otherwise nothing. */
  method VisitName(t: Tree, u: Tree, d: Path, pattern: string, done: seq<string>, name: string)
    returns (r: Result<Tree, FsError>)
    requires IsDir(t, d) && Shrinks(u, t) && RemovedUpTo(t, u, d, pattern, done) && name !in done
    ensures r.Failure? ==>
      && r.error == IsADirectory(d + [name])
      && Glob.Match(pattern, name) && IsDir(t, d + [name])
      && RemoveMatching(t, d, pattern).Failure?
    ensures r.Success? ==>
      && !(Glob.Match(pattern, name) && IsDir(t, d + [name]))
      && Shrinks(r.value, t) && RemovedUpTo(t, r.value, d, pattern, done + [name])
  {
    var p := d + [name];
    if Glob.Match(pattern, name) {
      r := RemoveFile(u, p);
      if r.Failure? {
        MatchedDirectoryFails(t, d, pattern, name);
      } else {
        assert ChildOf(p, d) && Name(p) == name;
        RemoveStep(t, u, d, pattern, done, name);
      }
    } else {
      SkipStep(t, u, d, pattern, done, name);
      r := Success(u);
    }
  }

  /** A matching name that lists a directory makes the pattern removal raise. */
  lemma MatchedDirectoryFails(t: Tree, d: Path, pattern: string, name: string)
    requires IsDir(t, d) && Glob.Match(pattern, name) && IsDir(t, d + [name])
    ensures RemoveMatching(t, d, pattern).Failure?
  {
    var p := d + [name];
    assert p[..|d|] == d && Name(p) == name;
    assert MatchedChild(p, d, pattern);
  }

  /** After the whole listing without a matching directory, the walk has
      produced the order-free summary. */
  lemma AllMatchesRemoved(t: Tree, u: Tree, d: Path, pattern: string, listing: seq<string>)
    requires IsDir(t, d) && Listing(t, d, listing) && Shrinks(u, t)
    requires RemovedUpTo(t, u, d, pattern, listing)
    requires forall j | 0 <= j < |listing| :: !(Glob.Match(pattern, listing[j]) && IsDir(t, d + [listing[j]]))
    ensures RemoveMatching(t, d, pattern) == Success(u)
  {
    NoMatchedDirectory(t, d, pattern, listing);
    var expected := RemoveMatching(t, d, pattern).value;
    forall q | q in t && MatchedChild(q, d, pattern)
      ensures Name(q) in listing
    {
    }
    assert u.Keys == expected.Keys;
    SameEntries(u, expected, t);
  }

  /** Loop state of `RemoveFilesByPattern`: after the names in `done`, exactly
      the matching children named in `done` are gone. */
  predicate RemovedUpTo(t: Tree, u: Tree, d: Path, pattern: string, done: seq<string>) {
    forall p | p in t :: p in u <==> !(MatchedChild(p, d, pattern) && Name(p) in done)
  }

  /** Two shrinkings of one tree with the same paths are the same tree. */
  lemma SameEntries(u: Tree, v: Tree, t: Tree)
    requires Shrinks(u, t) && Shrinks(v, t) && u.Keys == v.Keys
    ensures u == v
  {
  }

  lemma NotYetListed(listing: seq<string>, k: nat)
    requires k < |listing|
    requires forall i, j | 0 <= i < j < |listing| :: listing[i] != listing[j]
    ensures listing[k] !in listing[..k]
  {
  }

  lemma ChildNamed(d: Path, q: Path, name: string)
    requires ChildOf(q, d) && Name(q) == name
    ensures q == d + [name]
  {
    assert q == q[..|d|] + [Name(q)];
  }

  lemma RemoveStep(t: Tree, u: Tree, d: Path, pattern: string, done: seq<string>, name: string)
    requires Shrinks(u, t) && RemovedUpTo(t, u, d, pattern, done)
    requires Glob.Match(pattern, name) && name !in done
    requires !IsDir(u, d + [name])
    ensures RemovedUpTo(t, u - {d + [name]}, d, pattern, done + [name])
  {
    var p := d + [name];
    assert ChildOf(p, d) && Name(p) == name;
    forall q | q in t
      ensures q in u - {p} <==> !(MatchedChild(q, d, pattern) && Name(q) in done + [name])
    {
      if ChildOf(q, d) && Name(q) == name {
        ChildNamed(d, q, name);
      }
    }
  }

  lemma SkipStep(t: Tree, u: Tree, d: Path, pattern: string, done: seq<string>, name: string)
    requires RemovedUpTo(t, u, d, pattern, done)
    requires !Glob.Match(pattern, name)
    ensures RemovedUpTo(t, u, d, pattern, done + [name])
  {
  }

  lemma NoMatchedDirectory(t: Tree, d: Path, pattern: string, listing: seq<string>)
    requires Listing(t, d, listing)
    requires forall j | 0 <= j < |listing| :: !(Glob.Match(pattern, listing[j]) && IsDir(t, d + [listing[j]]))
    ensures !exists q | q in t :: MatchedChild(q, d, pattern) && t[q] == Dir
  {
    forall q | q in t && MatchedChild(q, d, pattern)
      ensures t[q] != Dir
    {
      var j :| 0 <= j < |listing| && listing[j] == Name(q);
      ChildNamed(d, q, listing[j]);
    }
  }

  /** Within a well-formed tree an entry's ancestors are directories. */
  lemma {:induction false} AncestorIsDir(t: Tree, p: Path, d: Path)
    requires WellFormed(t) && p in t && Within(p, d) && |d| > 0 && p != d
    ensures IsDir(t, d)
    decreases |p|
  {
    var parent := p[..|p| - 1];
    assert |p| > |d|;
    Rooted(t, p);
    if parent != d {
      assert parent[..|d|] == p[..|d|];
      AncestorIsDir(t, parent, d);
    }
  }

  /** A file of a well-formed tree has nothing below it. */
  lemma FileHasNoChildren(t: Tree, f: Path, p: Path)
    requires WellFormed(t) && IsFile(t, f) && p in t && Within(p, f)
    ensures p == f
  {
    if p != f {
      Rooted(t, f);
      AncestorIsDir(t, p, f);
    }
  }
}
