/** Which call of the plan reaches which path, rule by rule. */
module PostGenFate {
  import opened FileTree
  import opened Actions
  import opened PostGen
  import Glob

  /** Some by-name or by-pattern call of the plan hits `p`. */
  predicate ByFile(t: Tree, plan: seq<Action>, p: Path) {
    exists a | a in plan :: !a.RemoveDirAt? && Hits(t, a, p)
  }

  /** Some `remove_dir` call of the plan hits `p`. */
  predicate ByDir(t: Tree, plan: seq<Action>, p: Path) {
    exists a | a in plan :: a.RemoveDirAt? && Hits(t, a, p)
  }

  lemma Concat(t: Tree, a: seq<Action>, b: seq<Action>, p: Path)
    ensures ByFile(t, a + b, p) <==> ByFile(t, a, p) || ByFile(t, b, p)
    ensures ByDir(t, a + b, p) <==> ByDir(t, a, p) || ByDir(t, b, p)
  {
    if ByFile(t, a, p) {
      var x :| x in a && !x.RemoveDirAt? && Hits(t, x, p);
      assert x in a + b;
    }
    if ByFile(t, b, p) {
      var x :| x in b && !x.RemoveDirAt? && Hits(t, x, p);
      assert x in a + b;
    }
    if ByDir(t, a, p) {
      var x :| x in a && x.RemoveDirAt? && Hits(t, x, p);
      assert x in a + b;
    }
    if ByDir(t, b, p) {
      var x :| x in b && x.RemoveDirAt? && Hits(t, x, p);
      assert x in a + b;
    }
  }

  lemma One(t: Tree, a: Action, p: Path)
    ensures ByFile(t, [a], p) <==> !a.RemoveDirAt? && Hits(t, a, p)
    ensures ByDir(t, [a], p) <==> a.RemoveDirAt? && Hits(t, a, p)
  {
    assert a in [a];
  }

  lemma Two(t: Tree, a: Action, b: Action, p: Path)
    ensures ByFile(t, [a, b], p) <==> (!a.RemoveDirAt? && Hits(t, a, p)) || (!b.RemoveDirAt? && Hits(t, b, p))
    ensures ByDir(t, [a, b], p) <==> (a.RemoveDirAt? && Hits(t, a, p)) || (b.RemoveDirAt? && Hits(t, b, p))
  {
    assert [a, b] == [a] + [b];
    One(t, a, p);
    One(t, b, p);
    Concat(t, [a], [b], p);
  }

  lemma Three(t: Tree, a: Action, b: Action, c: Action, p: Path)
    ensures ByFile(t, [a, b, c], p) <==> ByFile(t, [a, b], p) || (!c.RemoveDirAt? && Hits(t, c, p))
    ensures ByDir(t, [a, b, c], p) <==> ByDir(t, [a, b], p) || (c.RemoveDirAt? && Hits(t, c, p))
  {
    assert [a, b, c] == [a, b] + [c];
    One(t, c, p);
    Concat(t, [a, b], [c], p);
  }

  lemma Four(t: Tree, a: Action, b: Action, c: Action, d: Action, p: Path)
    ensures ByFile(t, [a, b, c, d], p) <==> ByFile(t, [a, b, c], p) || (!d.RemoveDirAt? && Hits(t, d, p))
    ensures ByDir(t, [a, b, c, d], p) <==> ByDir(t, [a, b, c], p) || (d.RemoveDirAt? && Hits(t, d, p))
  {
    assert [a, b, c, d] == [a, b, c] + [d];
    One(t, d, p);
    Concat(t, [a, b, c], [d], p);
  }

  lemma Empty(t: Tree, p: Path)
    ensures !ByFile(t, [], p) && !ByDir(t, [], p)
  {
  }

  /** The five patterns are suffix tests on the names directly in `src`. */
  lemma PatternHits(t: Tree, pattern: string, p: Path)
    requires pattern in {"*_ipynb.py", "*.r", "*.R", "*.Rmd", "*.do"}
    ensures Hits(t, RemoveMatchingIn(Src, pattern), p) <==>
      IsDir(t, Src) && ChildOf(p, Src) && Glob.EndsWith(Name(p), pattern[1..])
  {
    assert Glob.Literal(pattern[1..]);
    if ChildOf(p, Src) {
      Glob.StarPattern(pattern, Name(p));
    }
  }

  // ---------------------------------------------------------------------
  // Rule by rule.

  predicate EnvironmentHits(manager: string, p: Path) {
    || (manager == "pip" && (p == EnvironmentYml || p == PixiToml || p == PyprojectToml))
    || (manager == "uv" && (p == EnvironmentYml || p == PixiToml || p == RequirementsTxt))
    || (manager == "conda" && (p == PixiToml || p == PyprojectToml))
    || (manager == "pixi" && (p == EnvironmentYml || p == PyprojectToml))
  }

  lemma EnvironmentFate(manager: string, t: Tree, p: Path)
    ensures ByFile(t, EnvironmentRule(manager), p) <==> EnvironmentHits(manager, p)
    ensures !ByDir(t, EnvironmentRule(manager), p)
  {
    if manager == "pip" {
      Three(t, RemoveFileAt(EnvironmentYml), RemoveFileAt(PixiToml), RemoveFileAt(PyprojectToml), p);
      Two(t, RemoveFileAt(EnvironmentYml), RemoveFileAt(PixiToml), p);
    } else if manager == "uv" {
      Three(t, RemoveFileAt(EnvironmentYml), RemoveFileAt(PixiToml), RemoveFileAt(RequirementsTxt), p);
      Two(t, RemoveFileAt(EnvironmentYml), RemoveFileAt(PixiToml), p);
    } else if manager == "conda" {
      Two(t, RemoveFileAt(PixiToml), RemoveFileAt(PyprojectToml), p);
    } else if manager == "pixi" {
      Two(t, RemoveFileAt(EnvironmentYml), RemoveFileAt(PyprojectToml), p);
    } else {
      Empty(t, p);
    }
  }

  lemma LatexFate(f: Flags, t: Tree, p: Path)
    ensures ByFile(t, LatexRule(f), p) <==> !f.latex && (p == LatexmkRc || p == ExampleTable || p == PandasToLatexDemo)
    ensures ByDir(t, LatexRule(f), p) <==> !f.latex && IsDir(t, Reports) && Within(p, Reports)
  {
    if f.latex {
      Empty(t, p);
    } else {
      var a, b, c, d := RemoveDirAt(Reports), RemoveFileAt(LatexmkRc), RemoveFileAt(ExampleTable), RemoveFileAt(PandasToLatexDemo);
      Four(t, a, b, c, d, p);
      Three(t, a, b, c, p);
      Two(t, a, b, p);
    }
  }

  lemma NotebookFate(f: Flags, t: Tree, p: Path)
    ensures ByFile(t, NotebookRule(f), p) <==>
      if !f.notebooks then IsDir(t, Src) && ChildOf(p, Src) && NotebookName(Name(p))
      else (!f.fred && p == Notebook02) || (!(f.fred && f.ofr) && p == Notebook03)
    ensures !ByDir(t, NotebookRule(f), p)
  {
    if !f.notebooks {
      One(t, RemoveMatchingIn(Src, "*_ipynb.py"), p);
      PatternHits(t, "*_ipynb.py", p);
    } else {
      var first := if !f.fred then [RemoveFileAt(Notebook02)] else [];
      var second := if !(f.fred && f.ofr) then [RemoveFileAt(Notebook03)] else [];
      Concat(t, first, second, p);
      Empty(t, p);
      One(t, RemoveFileAt(Notebook02), p);
      One(t, RemoveFileAt(Notebook03), p);
    }
  }

  lemma RFate(f: Flags, t: Tree, p: Path)
    ensures ByFile(t, RRule(f), p) <==>
      !f.r && (p == RRequirements || (IsDir(t, Src) && ChildOf(p, Src) && RScriptName(Name(p))))
    ensures !ByDir(t, RRule(f), p)
  {
    if f.r {
      Empty(t, p);
    } else {
      var a, b, c, d := RemoveMatchingIn(Src, "*.r"), RemoveMatchingIn(Src, "*.R"),
                        RemoveMatchingIn(Src, "*.Rmd"), RemoveFileAt(RRequirements);
      Four(t, a, b, c, d, p);
      Three(t, a, b, c, p);
      Two(t, a, b, p);
      PatternHits(t, "*.r", p);
      PatternHits(t, "*.R", p);
      PatternHits(t, "*.Rmd", p);
    }
  }

  lemma StataFate(f: Flags, t: Tree, p: Path)
    ensures ByFile(t, StataRule(f), p) <==> !f.stata && IsDir(t, Src) && ChildOf(p, Src) && StataName(Name(p))
    ensures !ByDir(t, StataRule(f), p)
  {
    if f.stata {
      Empty(t, p);
    } else {
      One(t, RemoveMatchingIn(Src, "*.do"), p);
      PatternHits(t, "*.do", p);
    }
  }

  lemma ChartbookFate(f: Flags, t: Tree, p: Path)
    ensures ByFile(t, ChartbookRule(f), p) <==> !f.chartbook && p == ChartbookToml
    ensures ByDir(t, ChartbookRule(f), p) <==> !f.chartbook && IsDir(t, DocsSrc) && Within(p, DocsSrc)
  {
    if f.chartbook {
      Empty(t, p);
    } else {
      Two(t, RemoveFileAt(ChartbookToml), RemoveDirAt(DocsSrc), p);
    }
  }

  lemma GitHubActionsFate(f: Flags, t: Tree, p: Path)
    ensures !ByFile(t, GitHubActionsRule(f), p)
    ensures ByDir(t, GitHubActionsRule(f), p) <==> !f.githubActions && IsDir(t, GitHub) && Within(p, GitHub)
  {
    if f.githubActions {
      Empty(t, p);
    } else {
      One(t, RemoveDirAt(GitHub), p);
    }
  }

  predicate DataSourceHits(f: Flags, p: Path) {
    || (!f.fred && (p == PullFred || p == TestPullFred))
    || (!f.fedYieldCurve && p == LoadFedYieldCurve)
    || (!f.ofr && p == PullOfrApiData)
    || (!(f.fred && f.ofr) && (p == PullPublicRepoData || p == ChartRelativeRepoRates))
    || (!f.bloomberg && p == PullBloomberg)
    || (!f.crspStock && p == PullCrspStock)
    || (!f.crspCompustat && p == PullCrspCompustat)
  }

  lemma DataSourceFate(f: Flags, t: Tree, p: Path)
    ensures ByFile(t, DataSourceRules(f), p) <==> DataSourceHits(f, p)
    ensures !ByDir(t, DataSourceRules(f), p)
  {
    Empty(t, p);
    Two(t, RemoveFileAt(PullFred), RemoveFileAt(TestPullFred), p);
    One(t, RemoveFileAt(LoadFedYieldCurve), p);
    One(t, RemoveFileAt(PullOfrApiData), p);
    Two(t, RemoveFileAt(PullPublicRepoData), RemoveFileAt(ChartRelativeRepoRates), p);
    One(t, RemoveFileAt(PullBloomberg), p);
    One(t, RemoveFileAt(PullCrspStock), p);
    One(t, RemoveFileAt(PullCrspCompustat), p);
    var s1 := FredRule(f);
    var s2 := s1 + FedYieldCurveRule(f);
    var s3 := s2 + OfrRule(f);
    var s4 := s3 + PublicRepoRule(f);
    var s5 := s4 + BloombergRule(f);
    var s6 := s5 + CrspStockRule(f);
    Concat(t, s1, FedYieldCurveRule(f), p);
    Concat(t, s2, OfrRule(f), p);
    Concat(t, s3, PublicRepoRule(f), p);
    Concat(t, s4, BloombergRule(f), p);
    Concat(t, s5, CrspStockRule(f), p);
    Concat(t, s6, CrspCompustatRule(f), p);
  }

  // ---------------------------------------------------------------------
  // The whole plan.

  /** What the by-name and by-pattern calls of the plan hit, rule by rule. */
  predicate PlanFileHits(f: Flags, manager: string, t: Tree, p: Path) {
    || EnvironmentHits(manager, p)
    || (!f.latex && (p == LatexmkRc || p == ExampleTable || p == PandasToLatexDemo))
    || (!f.notebooks && IsDir(t, Src) && ChildOf(p, Src) && NotebookName(Name(p)))
    || (f.notebooks && ((!f.fred && p == Notebook02) || (!(f.fred && f.ofr) && p == Notebook03)))
    || (!f.r && (p == RRequirements || (IsDir(t, Src) && ChildOf(p, Src) && RScriptName(Name(p)))))
    || (!f.stata && IsDir(t, Src) && ChildOf(p, Src) && StataName(Name(p)))
    || (!f.chartbook && p == ChartbookToml)
    || DataSourceHits(f, p)
  }

  /** What the `remove_dir` calls of the plan hit. */
  predicate PlanDirHits(f: Flags, t: Tree, p: Path) {
    || (!f.latex && IsDir(t, Reports) && Within(p, Reports))
    || (!f.chartbook && IsDir(t, DocsSrc) && Within(p, DocsSrc))
    || (!f.githubActions && IsDir(t, GitHub) && Within(p, GitHub))
  }

  lemma PlanFate(f: Flags, manager: string, t: Tree, p: Path)
    ensures ByFile(t, Plan(f, manager), p) <==> PlanFileHits(f, manager, t, p)
    ensures ByDir(t, Plan(f, manager), p) <==> PlanDirHits(f, t, p)
  {
    EnvironmentFate(manager, t, p);
    LatexFate(f, t, p);
    NotebookFate(f, t, p);
    RFate(f, t, p);
    StataFate(f, t, p);
    ChartbookFate(f, t, p);
    GitHubActionsFate(f, t, p);
    DataSourceFate(f, t, p);
    var s1 := EnvironmentRule(manager);
    var s2 := s1 + LatexRule(f);
    var s3 := s2 + NotebookRule(f);
    var s4 := s3 + RRule(f);
    var s5 := s4 + StataRule(f);
    var s6 := s5 + ChartbookRule(f);
    var s7 := s6 + GitHubActionsRule(f);
    Concat(t, s1, LatexRule(f), p);
    Concat(t, s2, NotebookRule(f), p);
    Concat(t, s3, RRule(f), p);
    Concat(t, s4, StataRule(f), p);
    Concat(t, s5, ChartbookRule(f), p);
    Concat(t, s6, GitHubActionsRule(f), p);
    Concat(t, s7, DataSourceRules(f), p);
  }
}
