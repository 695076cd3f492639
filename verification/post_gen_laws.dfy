/** What the post-generation hook guarantees: it implements the retention
    table, removes nothing else, only shrinks the tree, and is idempotent. */
module PostGenLaws {
  import opened Wrappers
  import opened FileTree
  import opened Actions
  import opened PostGen
  import opened PostGenFate
  import Glob

  // ---------------------------------------------------------------------
  // The plan's calls do not interfere with each other.

  /** The only shapes of call the plan contains. */
  predicate Shaped(a: Action) {
    match a
    case RemoveDirAt(d) => d in OptionalDirs
    case RemoveFileAt(q) => |q| > 0 && q[0] != "reports" && q[0] != "docs_src" && q[0] != ".github"
    case RemoveMatchingIn(d, _) => d == Src
  }

  predicate AllShaped(plan: seq<Action>) {
    forall a | a in plan :: Shaped(a)
  }

  lemma ShapedConcat(a: seq<Action>, b: seq<Action>)
    requires AllShaped(a) && AllShaped(b)
    ensures AllShaped(a + b)
  {
  }

  lemma EnvironmentRuleShaped(manager: string)
    ensures AllShaped(EnvironmentRule(manager))
  {
  }

  lemma FlagRulesShaped(f: Flags)
    ensures AllShaped(LatexRule(f)) && AllShaped(NotebookRule(f)) && AllShaped(RRule(f))
    ensures AllShaped(StataRule(f)) && AllShaped(ChartbookRule(f)) && AllShaped(GitHubActionsRule(f))
  {
  }

  lemma DataSourceRulesShaped(f: Flags)
    ensures AllShaped(FredRule(f)) && AllShaped(FedYieldCurveRule(f)) && AllShaped(OfrRule(f))
    ensures AllShaped(PublicRepoRule(f)) && AllShaped(BloombergRule(f))
    ensures AllShaped(CrspStockRule(f)) && AllShaped(CrspCompustatRule(f))
  {
  }

  lemma PlanShaped(f: Flags, manager: string)
    ensures AllShaped(Plan(f, manager))
  {
    EnvironmentRuleShaped(manager);
    FlagRulesShaped(f);
    DataSourceRulesShaped(f);
  }

  lemma ShapedIndependent(a: Action, b: Action)
    requires Shaped(a) && Shaped(b)
    ensures Independent(a, b)
  {
    if a.RemoveDirAt? {
      var d := a.dir;
      assert d == Reports || d == DocsSrc || d == GitHub;
      assert |d| == 1;
      match b
      case RemoveFileAt(q) =>
        assert q[..1] == [q[0]];
      case RemoveDirAt(_) =>
      case RemoveMatchingIn(dir, _) =>
        assert dir[..1] == ["src"];
    }
  }

  lemma {:induction false} ShapedNonInterfering(plan: seq<Action>)
    requires forall a | a in plan :: Shaped(a)
    ensures NonInterfering(plan)
    decreases |plan|
  {
    if |plan| > 0 {
      forall b | b in plan[1..]
        ensures Independent(plan[0], b)
      {
        ShapedIndependent(plan[0], b);
      }
      ShapedNonInterfering(plan[1..]);
    }
  }

  lemma PlanNonInterfering(f: Flags, manager: string)
    ensures NonInterfering(Plan(f, manager))
  {
    PlanShaped(f, manager);
    ShapedNonInterfering(Plan(f, manager));
  }

  // ---------------------------------------------------------------------
  // The plan implements the retention table.

  lemma PyIsNoScript(n: string)
    requires Glob.EndsWith(n, ".py")
    ensures !RScriptName(n) && !StataName(n)
  {
    assert n[|n| - 1] == 'y';
  }

  /** A listed file outside `src` is reached only by its by-name rule. */
  lemma TopLevelListed(f: Flags, manager: string, t: Tree, p: Path)
    requires p in ListedFiles && |p| == 1
    ensures FileRuleRemoves(f, manager, p) <==> PlanFileHits(f, manager, t, p)
  {
    assert !ChildOf(p, Src);
  }

  /** The by-name gate of each listed Python script in `src` other than
      the notebooks, in three groups and then case by case. */
  lemma SrcScriptGate(f: Flags, manager: string, p: Path)
    requires p in SrcScripts
    ensures !FileGate(f, manager, p) <==>
      (!f.latex && (p == ExampleTable || p == PandasToLatexDemo)) || DataSourceHits(f, p)
    ensures !EnvironmentHits(manager, p) && p != LatexmkRc && p != RRequirements && p != ChartbookToml
  {
    if p == ExampleTable || p == PandasToLatexDemo || p == PullFred || p == TestPullFred {
      TableAndFredScripts(f, manager, p);
    } else if p == LoadFedYieldCurve || p == PullOfrApiData || p == PullPublicRepoData || p == ChartRelativeRepoRates {
      CurveOfrAndRepoScripts(f, manager, p);
    } else {
      VendorScripts(f, manager, p);
    }
  }

  lemma TableAndFredScripts(f: Flags, manager: string, p: Path)
    requires p == ExampleTable || p == PandasToLatexDemo || p == PullFred || p == TestPullFred
    ensures !FileGate(f, manager, p) <==>
      (!f.latex && (p == ExampleTable || p == PandasToLatexDemo)) || DataSourceHits(f, p)
    ensures !EnvironmentHits(manager, p) && p != LatexmkRc && p != RRequirements && p != ChartbookToml
  {
    if p == ExampleTable {
    } else if p == PandasToLatexDemo {
    } else if p == PullFred {
    } else {
      assert p == TestPullFred;
    }
  }

  lemma CurveOfrAndRepoScripts(f: Flags, manager: string, p: Path)
    requires p == LoadFedYieldCurve || p == PullOfrApiData || p == PullPublicRepoData || p == ChartRelativeRepoRates
    ensures !FileGate(f, manager, p) <==>
      (!f.latex && (p == ExampleTable || p == PandasToLatexDemo)) || DataSourceHits(f, p)
    ensures !EnvironmentHits(manager, p) && p != LatexmkRc && p != RRequirements && p != ChartbookToml
  {
    if p == LoadFedYieldCurve {
    } else if p == PullOfrApiData {
    } else if p == PullPublicRepoData {
    } else {
      assert p == ChartRelativeRepoRates;
    }
  }

  lemma VendorScripts(f: Flags, manager: string, p: Path)
    requires p == PullBloomberg || p == PullCrspStock || p == PullCrspCompustat
    ensures !FileGate(f, manager, p) <==>
      (!f.latex && (p == ExampleTable || p == PandasToLatexDemo)) || DataSourceHits(f, p)
    ensures !EnvironmentHits(manager, p) && p != LatexmkRc && p != RRequirements && p != ChartbookToml
  {
    if p == PullBloomberg {
    } else if p == PullCrspStock {
    } else {
      assert p == PullCrspCompustat;
    }
  }

  /** Each listed Python script in `src` other than the notebooks has a
      `.py` name that does not end in `b.py`, the tail of `_ipynb.py`. */
  lemma SrcScriptShape(p: Path)
    requires p in SrcScripts
    ensures |p| == 2 && p[0] == "src" && Glob.EndsWith(p[1], ".py") && !Glob.EndsWith(p[1], "b.py")
  {
    SrcScriptTail(p);
    PyTail(p[1]);
  }

  /** The last four characters of each such name, one script at a time. */
  lemma SrcScriptTail(p: Path)
    requires p in SrcScripts
    ensures |p| == 2 && p[0] == "src" && |p[1]| >= 4
    ensures p[1][|p[1]| - 3] == '.' && p[1][|p[1]| - 2] == 'p' && p[1][|p[1]| - 1] == 'y'
    ensures p[1][|p[1]| - 4] != 'b'
  {
    if p == ExampleTable {
    } else if p == PandasToLatexDemo {
    } else if p == PullFred {
    } else if p == TestPullFred {
    } else if p == LoadFedYieldCurve {
    } else if p == PullOfrApiData {
    } else if p == PullPublicRepoData {
    } else if p == ChartRelativeRepoRates {
    } else if p == PullBloomberg {
    } else if p == PullCrspStock {
    } else {
      assert p == PullCrspCompustat;
    }
  }

  /** A name whose last four characters are `.py` after anything but `b`
      ends in `.py` and not in `b.py`. */
  lemma PyTail(n: string)
    requires |n| >= 4 && n[|n| - 3] == '.' && n[|n| - 2] == 'p' && n[|n| - 1] == 'y'
    requires n[|n| - 4] != 'b'
    ensures Glob.EndsWith(n, ".py") && !Glob.EndsWith(n, "b.py")
  {
    assert n[|n| - 3..] == ".py";
  }

  /** The listed Python scripts in `src` other than the notebooks match no
      pattern. */
  lemma SrcScriptSuffix(f: Flags, p: Path)
    requires p in SrcScripts
    ensures |p| == 2 && p[0] == "src" && ChildOf(p, Src) && SuffixGate(f, Name(p))
  {
    SrcScriptShape(p);
    var n := Name(p);
    PyIsNoScript(n);
    if NotebookName(n) {
      NotebookNameEnd(n);
    }
  }

  /** A notebook name ends in `b.py`, the tail of `_ipynb.py`. */
  lemma NotebookNameEnd(n: string)
    requires NotebookName(n)
    ensures Glob.EndsWith(n, "b.py")
  {
    assert n[|n| - 4..] == n[|n| - 9..][5..];
  }

  /** A listed Python script in `src` other than the notebooks. */
  lemma SrcScriptListed(f: Flags, manager: string, t: Tree, p: Path)
    requires p in SrcScripts
    ensures FileRuleRemoves(f, manager, p) <==> PlanFileHits(f, manager, t, p)
  {
    SrcScriptGate(f, manager, p);
    SrcScriptSuffix(f, p);
  }

  lemma NotebookListed(f: Flags, manager: string, t: Tree, p: Path)
    requires p == Notebook02 || p == Notebook03
    requires IsDir(t, Src)
    ensures FileRuleRemoves(f, manager, p) <==> PlanFileHits(f, manager, t, p)
  {
    if p == Notebook02 {
      Notebook02Listed(f, manager, t);
    } else {
      Notebook03Listed(f, manager, t);
    }
  }

  lemma Notebook02Listed(f: Flags, manager: string, t: Tree)
    requires IsDir(t, Src)
    ensures FileRuleRemoves(f, manager, Notebook02) <==> PlanFileHits(f, manager, t, Notebook02)
  {
    NotebookShape(Notebook02);
  }

  lemma Notebook03Listed(f: Flags, manager: string, t: Tree)
    requires IsDir(t, Src)
    ensures FileRuleRemoves(f, manager, Notebook03) <==> PlanFileHits(f, manager, t, Notebook03)
  {
    NotebookShape(Notebook03);
  }

  /** Notebooks 02 and 03 sit directly in `src` and match only the notebook
      pattern. */
  lemma NotebookShape(p: Path)
    requires p == Notebook02 || p == Notebook03
    ensures ChildOf(p, Src) && NotebookName(Name(p)) && !RScriptName(Name(p)) && !StataName(Name(p))
  {
    assert ChildOf(p, Src);
    PyIsNoScript(Name(p));
    assert NotebookName(Name(p));
  }

  /** No by-name rule reaches a path it does not name. */
  lemma UnlistedGate(f: Flags, manager: string, p: Path)
    requires p !in ListedFiles
    ensures FileGate(f, manager, p)
  {
  }

  /** A path no rule names is reached only by the patterns. */
  lemma UnlistedFile(f: Flags, manager: string, t: Tree, p: Path)
    requires p !in ListedFiles
    requires ChildOf(p, Src) ==> IsDir(t, Src)
    ensures FileRuleRemoves(f, manager, p) <==> PlanFileHits(f, manager, t, p)
  {
    UnlistedGate(f, manager, p);
    assert !EnvironmentHits(manager, p);
    assert !DataSourceHits(f, p);
  }

  lemma FileTableMatchesPlan(f: Flags, manager: string, t: Tree, p: Path)
    requires WellFormed(t) && p in t
    ensures FileRuleRemoves(f, manager, p) <==> PlanFileHits(f, manager, t, p)
  {
    if ChildOf(p, Src) {
      assert p[..|p| - 1] == Src;
      Rooted(t, p);
    }
    if p in ListedFiles {
      if |p| == 1 {
        TopLevelListed(f, manager, t, p);
      } else if p == Notebook02 || p == Notebook03 {
        NotebookListed(f, manager, t, p);
      } else {
        SrcScriptListed(f, manager, t, p);
      }
    } else {
      UnlistedFile(f, manager, t, p);
    }
  }

  lemma DirTableMatchesPlan(f: Flags, t: Tree, p: Path)
    ensures DirRuleRemoves(f, t, p) <==> PlanDirHits(f, t, p)
  {
    if PlanDirHits(f, t, p) {
      if !f.latex && IsDir(t, Reports) && Within(p, Reports) {
        assert DirGate(f, Reports) == f.latex;
      } else if !f.chartbook && IsDir(t, DocsSrc) && Within(p, DocsSrc) {
        assert DirGate(f, DocsSrc) == f.chartbook;
      } else {
        assert DirGate(f, GitHub) == f.githubActions;
      }
    }
  }

  // ---------------------------------------------------------------------
  // The hook implements the retention table.

  /** Some call of the plan raises exactly when a by-name or by-pattern
      rule wants a directory gone. */
  lemma RaisesIffClash(f: Flags, manager: string, t: Tree)
    requires WellFormed(t)
    ensures RaisesAny(t, Plan(f, manager)) <==> Clash(f, manager, t)
  {
    var plan := Plan(f, manager);
    if RaisesAny(t, plan) {
      var a :| a in plan && Raises(t, a);
      var p :| p in t && t[p] == Dir && Hits(t, a, p);
      assert ByFile(t, plan, p);
      PlanFate(f, manager, t, p);
      FileTableMatchesPlan(f, manager, t, p);
    }
    if Clash(f, manager, t) {
      var p :| p in t && t[p] == Dir && FileRuleRemoves(f, manager, p);
      FileTableMatchesPlan(f, manager, t, p);
      PlanFate(f, manager, t, p);
      var a :| a in plan && !a.RemoveDirAt? && Hits(t, a, p);
      assert Raises(t, a);
    }
  }

  /** An entry escapes every call of the plan exactly when the table
      retains it. */
  lemma KeepIffRetained(f: Flags, manager: string, t: Tree, p: Path)
    requires WellFormed(t)
    ensures p in Keep(t, Plan(f, manager)) <==> Retained(f, manager, t, p)
  {
    var plan := Plan(f, manager);
    if p in t {
      PlanFate(f, manager, t, p);
      FileTableMatchesPlan(f, manager, t, p);
      DirTableMatchesPlan(f, t, p);
      if p !in Keep(t, plan) {
        var a :| a in plan && Hits(t, a, p);
        if a.RemoveDirAt? {
          assert ByDir(t, plan, p);
        } else {
          assert ByFile(t, plan, p);
        }
      }
    }
  }

  /** The post-generation hook, on a well-formed generated project: it
      raises exactly when a by-name or by-pattern rule reaches a directory,
      and otherwise leaves exactly the entries the retention table keeps. */
  lemma HookResolution(f: Flags, manager: string, t: Tree)
    requires WellFormed(t)
    ensures Hook(f, manager, t).Failure? <==> Clash(f, manager, t)
    ensures Hook(f, manager, t).Success? ==>
      && Shrinks(Hook(f, manager, t).value, t)
      && forall p :: p in Hook(f, manager, t).value <==> Retained(f, manager, t, p)
  {
    PlanNonInterfering(f, manager);
    ApplySummary(t, Plan(f, manager));
    RaisesIffClash(f, manager, t);
    forall p
      ensures p in Keep(t, Plan(f, manager)) <==> Retained(f, manager, t, p)
    {
      KeepIffRetained(f, manager, t, p);
    }
  }
}
