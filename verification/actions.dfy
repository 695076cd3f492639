/** An ordered list of removal calls, as the post-generation hook issues them,
    and what running it does to a tree. The main result, `ApplySummary`,
    says that when no `remove_dir` in the list reaches anything a later call
    looks at, running the list equals removing, in one go, every entry that
    some call would remove from the ORIGINAL tree. */
module Actions {
  import opened Wrappers
  import opened FileTree
  import Glob

  /** One call of the hook's removal primitives. */
  datatype Action =
    | RemoveFileAt(path: Path)
    | RemoveDirAt(dir: Path)
    | RemoveMatchingIn(dir: Path, pattern: string)

  function Step(t: Tree, a: Action): Result<Tree, FsError> {
    match a
    case RemoveFileAt(p) => RemoveFile(t, p)
    case RemoveDirAt(d) => Success(RemoveDir(t, d))
    case RemoveMatchingIn(d, pattern) => RemoveMatching(t, d, pattern)
  }

  /** Run the calls in order; the first that raises stops the hook. Whatever
      the calls, a run only removes entries. */
  function Apply(t: Tree, plan: seq<Action>): (r: Result<Tree, FsError>)
    ensures r.Success? ==> Shrinks(r.value, t)
    decreases |plan|
  {
    if |plan| == 0 then Success(t)
    else
      StepKeeps(t, plan);
      var u :- Step(t, plan[0]);
      Apply(u, plan[1..])
  }

  /** Whatever the calls, an entry that no call would hit in the original
      tree survives a successful run. */
  lemma {:induction false} ApplyFrame(t: Tree, plan: seq<Action>, p: Path)
    requires Apply(t, plan).Success? && p in t
    requires forall a | a in plan :: !Hits(t, a, p)
    ensures p in Apply(t, plan).value
    decreases |plan|
  {
    if |plan| > 0 {
      StepKeeps(t, plan);
      ApplyFrame(Step(t, plan[0]).value, plan[1..], p);
    }
  }

  /** One successful call only removes entries, and what the first call
      spares and no later call would hit in `t`, no later call hits after it. */
  lemma StepKeeps(t: Tree, plan: seq<Action>)
    requires |plan| > 0
    ensures Step(t, plan[0]).Success? ==> Shrinks(Step(t, plan[0]).value, t)
    ensures Step(t, plan[0]).Success? ==>
      forall p | p in t && (forall a | a in plan :: !Hits(t, a, p)) ::
        p in Step(t, plan[0]).value && forall a | a in plan[1..] :: !Hits(Step(t, plan[0]).value, a, p)
  {
    StepSummary(t, plan[0]);
    if Step(t, plan[0]).Success? {
      var u := Step(t, plan[0]).value;
      forall p, a | p in t && (forall b | b in plan :: !Hits(t, b, p)) && a in plan[1..]
        ensures p in u && !Hits(u, a, p)
      {
        assert plan[0] in plan;
        Monotone(u, t, a);
      }
    }
  }

  /** Call `a`, made on tree `t`, removes (or tries to remove) entry `p`. */
  predicate Hits(t: Tree, a: Action, p: Path) {
    match a
    case RemoveFileAt(q) => p == q
    case RemoveDirAt(d) => IsDir(t, d) && Within(p, d)
    case RemoveMatchingIn(d, pattern) => IsDir(t, d) && MatchedChild(p, d, pattern)
  }

  /** Call `a` raises on `t`: it is a file removal that reaches a directory. */
  predicate Raises(t: Tree, a: Action) {
    !a.RemoveDirAt? && exists p | p in t && t[p] == Dir :: Hits(t, a, p)
  }

  /** The entries of `t` that no call of the plan hits. */
  function Keep(t: Tree, plan: seq<Action>): (u: Tree)
    ensures Shrinks(u, t)
    ensures forall p :: p in u <==> p in t && forall a | a in plan :: !Hits(t, a, p)
  {
    map p | p in t && (forall a | a in plan :: !Hits(t, a, p)) :: t[p]
  }

  lemma KeepOne(t: Tree, a: Action)
    ensures forall p :: p in Keep(t, [a]) <==> p in t && !Hits(t, a, p)
  {
    forall p | p in t
      ensures p in Keep(t, [a]) <==> !Hits(t, a, p)
    {
      assert a in [a];
    }
  }

  /** One call: it raises exactly when it reaches a directory, and otherwise
      removes exactly what it hits. */
  lemma StepSummary(t: Tree, a: Action)
    ensures Step(t, a).Failure? <==> Raises(t, a)
    ensures Step(t, a).Success? ==> Step(t, a).value == Keep(t, [a])
  {
    KeepOne(t, a);
    match a
    case RemoveFileAt(q) =>
      if IsDir(t, q) {
        assert Hits(t, a, q);
      } else if Step(t, a).Success? {
        SameEntries(Step(t, a).value, Keep(t, [a]), t);
      }
    case RemoveDirAt(d) =>
      SameEntries(Step(t, a).value, Keep(t, [a]), t);
    case RemoveMatchingIn(d, pattern) =>
      if Step(t, a).Success? {
        SameEntries(Step(t, a).value, Keep(t, [a]), t);
      }
  }

  /** Running `a` first cannot change what `b` does: only `remove_dir` deletes
      directories, so it must not reach the path `b` removes or the directory
      `b` lists. */
  predicate Independent(a: Action, b: Action) {
    a.RemoveDirAt? ==>
      match b
      case RemoveFileAt(q) => !Within(q, a.dir)
      case RemoveDirAt(_) => true
      case RemoveMatchingIn(d, _) => !Within(d, a.dir) && !ChildOf(a.dir, d)
  }

  predicate NonInterfering(plan: seq<Action>)
    decreases |plan|
  {
    |plan| > 0 ==>
      && (forall b | b in plan[1..] :: Independent(plan[0], b))
      && NonInterfering(plan[1..])
  }

  lemma WithinTrans(p: Path, q: Path, d: Path)
    requires Within(p, q) && Within(q, d)
    ensures Within(p, d)
  {
    assert p[..|d|] == p[..|q|][..|d|];
  }

  /** After a call `a` that did not raise, an independent later call `b`
      raises and hits exactly as it would have on the tree before `a`. */
  lemma Stable(t: Tree, a: Action, b: Action)
    requires Independent(a, b) && !Raises(t, a)
    ensures Raises(Keep(t, [a]), b) <==> Raises(t, b)
    ensures forall p | p in Keep(t, [a]) :: Hits(Keep(t, [a]), b, p) <==> Hits(t, b, p)
  {
    var t1 := Keep(t, [a]);
    KeepOne(t, a);
    if a.RemoveDirAt? && IsDir(t, a.dir) {
      var d0 := a.dir;
      assert forall x :: IsDir(t1, x) <==> IsDir(t, x) && !Within(x, d0);
      forall p | p in t1
        ensures Hits(t1, b, p) <==> Hits(t, b, p)
      {
        if b.RemoveDirAt? && IsDir(t, b.dir) && Within(p, b.dir) && Within(b.dir, d0) {
          WithinTrans(p, b.dir, d0);
        }
      }
      if Raises(t, b) {
        var p :| p in t && t[p] == Dir && Hits(t, b, p);
        match b
        case RemoveFileAt(q) =>
          assert p in t1;
        case RemoveMatchingIn(d, _) =>
          assert p in t1;
      }
    } else {
      // Only plain files left the tree: every directory is where it was.
      forall x | IsDir(t, x)
        ensures x in t1
      {
        assert !Hits(t, a, x);
      }
    }
  }

  predicate RaisesAny(t: Tree, plan: seq<Action>) {
    exists a | a in plan :: Raises(t, a)
  }

  /** The plan raises exactly when one of its calls would raise on the
      original tree; otherwise it removes exactly what its calls hit in the
      original tree. */
  lemma {:induction false} ApplySummary(t: Tree, plan: seq<Action>)
    requires NonInterfering(plan)
    ensures Apply(t, plan).Failure? <==> RaisesAny(t, plan)
    ensures Apply(t, plan).Success? ==> Apply(t, plan).value == Keep(t, plan)
    decreases |plan|
  {
    if |plan| == 0 {
      SameEntries(t, Keep(t, plan), t);
    } else {
      var a, rest := plan[0], plan[1..];
      assert plan == [a] + rest;
      StepSummary(t, a);
      if !Raises(t, a) {
        var t1 := Keep(t, [a]);
        ApplySummary(t1, rest);
        forall b | b in rest
          ensures (Raises(t1, b) <==> Raises(t, b))
          ensures forall p | p in t1 :: Hits(t1, b, p) <==> Hits(t, b, p)
        {
          Stable(t, a, b);
        }
        if Apply(t, plan).Success? {
          assert Keep(t1, rest).Keys == Keep(t, plan).Keys;
          SameEntries(Keep(t1, rest), Keep(t, plan), t);
        }
      }
    }
  }

  /** What a sub-tree of `t` hits or raises on, `t` hits or raises on too. */
  lemma Monotone(u: Tree, t: Tree, a: Action)
    requires Shrinks(u, t)
    ensures Raises(u, a) ==> Raises(t, a)
    ensures forall p :: Hits(u, a, p) ==> Hits(t, a, p)
  {
  }

  /** Running a non-interfering plan a second time changes nothing. */
  lemma ApplyIdempotent(t: Tree, plan: seq<Action>)
    requires NonInterfering(plan) && Apply(t, plan).Success?
    ensures Apply(Apply(t, plan).value, plan) == Apply(t, plan)
  {
    ApplySummary(t, plan);
    var u := Apply(t, plan).value;
    forall a | a in plan
      ensures !Raises(u, a)
      ensures forall p | p in u :: !Hits(u, a, p)
    {
      Monotone(u, t, a);
    }
    ApplySummary(u, plan);
    SameEntries(Keep(u, plan), u, u);
  }

  /** A plan that does not raise keeps a well-formed tree well formed: it
      removes directories only together with everything below them, and
      removes no directory any other way. */
  lemma ApplyKeepsWellFormed(t: Tree, plan: seq<Action>)
    requires NonInterfering(plan) && WellFormed(t) && Apply(t, plan).Success?
    ensures WellFormed(Apply(t, plan).value)
  {
    ApplySummary(t, plan);
    var u := Apply(t, plan).value;
    forall p | p in u
      ensures |p| > 0
    {
      Rooted(t, p);
    }
    forall p | p in u && |p| > 1
      ensures IsDir(u, p[..|p| - 1])
    {
      var parent := p[..|p| - 1];
      Rooted(t, p);
      forall a | a in plan
        ensures !Hits(t, a, parent)
      {
        if a.RemoveDirAt? {
          if Within(parent, a.dir) {
            WithinTrans(p, parent, a.dir);
          }
        } else {
          assert !Raises(t, a);
        }
      }
    }
  }
}
