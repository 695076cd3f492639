/** The selections the template's test suite generates, and what the
    post-generation hook leaves of a generated project under each. */
module Scenarios {
  import opened Wrappers
  import opened FileTree
  import opened PostGen
  import opened PostGenLaws
  import opened HookLaws
  import Glob

  /** Every option off. */
  const NoFeatures: Flags := Flags(false, false, false, false, false, false, false, false, false, false, false, false)

  /** Every option on. */
  const AllFeatures: Flags := Flags(true, true, true, true, true, true, true, true, true, true, true, true)

  const Readme: Path := ["README.md"]
  const Dodo: Path := ["dodo.py"]
  const GitIgnore: Path := [".gitignore"]
  const Settings: Path := ["src", "settings.py"]
  const MiscTools: Path := ["src", "misc_tools.py"]
  const ExampleRPlot: Path := ["src", "example_r_plot.r"]
  const ExampleRegressions: Path := ["src", "04_example_regressions.Rmd"]
  const InstallPackages: Path := ["src", "install_packages.r"]
  const ExampleStataPlot: Path := ["src", "example_stata_plot.do"]

  /** The optional directories, where present, are directories. */
  predicate OptionalDirsAreDirs(t: Tree) {
    forall d | d in OptionalDirs && d in t :: t[d] == Dir
  }

  lemma TopLevelKept(f: Flags, manager: string, t: Tree, p: Path)
    requires WellFormed(t) && p in t
    requires |p| == 1 && p !in ListedFiles && p[0] != "reports" && p[0] != "docs_src" && p[0] != ".github"
    ensures Hook(f, manager, t).Success? ==> p in Hook(f, manager, t).value
  {
    Frame(f, manager, t, p);
  }

  lemma SrcModuleKept(f: Flags, manager: string, t: Tree, p: Path)
    requires WellFormed(t) && p in t
    requires |p| == 2 && p[0] == "src" && p !in ListedFiles
    requires Glob.EndsWith(Name(p), ".py") && !Glob.EndsWith(Name(p), "_ipynb.py")
    ensures Hook(f, manager, t).Success? ==> p in Hook(f, manager, t).value
  {
    assert p[..1] == Src;
    PyIsNoScript(Name(p));
    PatternLaw(f, manager, t, p);
  }

  lemma CommonFilesUnlisted()
    ensures Readme !in ListedFiles && Dodo !in ListedFiles && GitIgnore !in ListedFiles
    ensures Settings !in ListedFiles && MiscTools !in ListedFiles
  {
    TopLevelFilesUnlisted();
    SrcModulesUnlisted();
  }

  lemma TopLevelFilesUnlisted()
    ensures Readme !in ListedFiles && Dodo !in ListedFiles && GitIgnore !in ListedFiles
  {
  }

  lemma SrcModulesUnlisted()
    ensures Settings !in ListedFiles && MiscTools !in ListedFiles
  {
  }

  /** `settings.py` and `misc_tools.py` are plain Python modules. */
  lemma SrcModuleNames()
    ensures Glob.EndsWith(Name(Settings), ".py") && !Glob.EndsWith(Name(Settings), "_ipynb.py")
    ensures Glob.EndsWith(Name(MiscTools), ".py") && !Glob.EndsWith(Name(MiscTools), "_ipynb.py")
  {
    assert Name(Settings)[|Name(Settings)| - 9..][0] != '_';
    assert Name(MiscTools)[|Name(MiscTools)| - 9..][1] != 'i';
  }

  /** The files every project keeps. */
  lemma CommonFilesKept(f: Flags, manager: string, t: Tree)
    requires WellFormed(t) && Hook(f, manager, t).Success?
    ensures Readme in t ==> Readme in Hook(f, manager, t).value
    ensures Dodo in t ==> Dodo in Hook(f, manager, t).value
    ensures GitIgnore in t ==> GitIgnore in Hook(f, manager, t).value
    ensures Settings in t ==> Settings in Hook(f, manager, t).value
    ensures MiscTools in t ==> MiscTools in Hook(f, manager, t).value
  {
    CommonFilesUnlisted();
    SrcModuleNames();
    if Readme in t {
      TopLevelKept(f, manager, t, Readme);
    }
    if Dodo in t {
      TopLevelKept(f, manager, t, Dodo);
    }
    if GitIgnore in t {
      TopLevelKept(f, manager, t, GitIgnore);
    }
    if Settings in t {
      SrcModuleKept(f, manager, t, Settings);
    }
    if MiscTools in t {
      SrcModuleKept(f, manager, t, MiscTools);
    }
  }

  /** With every option off, no named script in `src` passes its gate. */
  lemma NoFeaturesGate(p: Path)
    requires p in SrcScripts
    ensures !FileGate(NoFeatures, "pip", p)
  {
    SrcScriptGate(NoFeatures, "pip", p);
  }

  /** With every option off and pip, only `requirements.txt` of the
      manifests stays, and no optional directory or data script survives. */
  lemma MinimalPip(t: Tree)
    requires WellFormed(t) && OptionalDirsAreDirs(t) && Hook(NoFeatures, "pip", t).Success?
    ensures RequirementsTxt in t ==> RequirementsTxt in Hook(NoFeatures, "pip", t).value
    ensures forall p | p in {EnvironmentYml, PyprojectToml, PixiToml, LatexmkRc, ChartbookToml, RRequirements}
      :: p !in Hook(NoFeatures, "pip", t).value
    ensures forall p | p in SrcScripts :: p !in Hook(NoFeatures, "pip", t).value
    ensures forall p | p in t && ChildOf(p, Src) && (NotebookName(Name(p)) || RScriptName(Name(p)) || StataName(Name(p)))
      :: p !in Hook(NoFeatures, "pip", t).value
    ensures forall d | d in OptionalDirs :: d !in Hook(NoFeatures, "pip", t).value
  {
    var r := Hook(NoFeatures, "pip", t).value;
    HookShrinks(NoFeatures, "pip", t);
    forall q | q in Manifests && q in t
      ensures q in r <==> q == RequirementsTxt
    {
      ManifestLaw(NoFeatures, "pip", t, q);
    }
    OptionFileLaw(NoFeatures, "pip", t);
    forall p | p in SrcScripts && p in t
      ensures p !in r
    {
      ScriptLaw(NoFeatures, "pip", t, p);
      NoFeaturesGate(p);
    }
    forall p | p in t && ChildOf(p, Src) && (NotebookName(Name(p)) || RScriptName(Name(p)) || StataName(Name(p)))
      ensures p !in r
    {
      ExtensionLaw(NoFeatures, "pip", t, p);
    }
    forall d | d in OptionalDirs && d in t
      ensures d !in r
    {
      OptionalDirLaw(NoFeatures, "pip", t, d);
    }
  }

  /** With every option on and conda, the hook raises only if `pixi.toml`
      or `pyproject.toml` is a directory, and otherwise removes exactly
      those two. */
  lemma FullConda(t: Tree)
    requires WellFormed(t)
    ensures Hook(AllFeatures, "conda", t).Success? <==> !IsDir(t, PixiToml) && !IsDir(t, PyprojectToml)
    ensures Hook(AllFeatures, "conda", t).Success? ==>
      forall p :: p in Hook(AllFeatures, "conda", t).value <==> p in t && p != PixiToml && p != PyprojectToml
  {
    HookResolution(AllFeatures, "conda", t);
    forall p
      ensures FileRuleRemoves(AllFeatures, "conda", p) <==> p == PixiToml || p == PyprojectToml
      ensures !DirRuleRemoves(AllFeatures, t, p)
    {
    }
    if IsDir(t, PixiToml) {
      assert FileRuleRemoves(AllFeatures, "conda", PixiToml);
    }
    if IsDir(t, PyprojectToml) {
      assert FileRuleRemoves(AllFeatures, "conda", PyprojectToml);
    }
  }

  /** Notebooks with FRED but no OFR: notebooks 01 and 02 stay, 03 goes. */
  lemma NotebooksWithFredOnly(t: Tree)
    requires WellFormed(t)
    requires Hook(NoFeatures.(notebooks := true, fred := true), "pip", t).Success?
    ensures Notebook01 in t ==> Notebook01 in Hook(NoFeatures.(notebooks := true, fred := true), "pip", t).value
    ensures Notebook02 in t ==> Notebook02 in Hook(NoFeatures.(notebooks := true, fred := true), "pip", t).value
    ensures Notebook03 !in Hook(NoFeatures.(notebooks := true, fred := true), "pip", t).value
  {
    NotebookLaw(NoFeatures.(notebooks := true, fred := true), "pip", t);
    HookShrinks(NoFeatures.(notebooks := true, fred := true), "pip", t);
  }

  /** Notebooks with FRED and OFR: all three notebooks stay. */
  lemma NotebooksWithFredAndOfr(t: Tree)
    requires WellFormed(t)
    requires Hook(NoFeatures.(notebooks := true, fred := true, ofr := true), "pip", t).Success?
    ensures forall p | p in {Notebook01, Notebook02, Notebook03} && p in t ::
      p in Hook(NoFeatures.(notebooks := true, fred := true, ofr := true), "pip", t).value
  {
    NotebookLaw(NoFeatures.(notebooks := true, fred := true, ofr := true), "pip", t);
  }

  /** LaTeX alone keeps the reports directory, `.latexmkrc` and the two
      table scripts. */
  lemma LatexOnly(t: Tree)
    requires WellFormed(t) && Hook(NoFeatures.(latex := true), "pip", t).Success?
    ensures forall p | p in {Reports, LatexmkRc, ExampleTable, PandasToLatexDemo} && p in t ::
      p in Hook(NoFeatures.(latex := true), "pip", t).value
  {
    var f := NoFeatures.(latex := true);
    OptionFileLaw(f, "pip", t);
    if Reports in t {
      OptionalDirLaw(f, "pip", t, Reports);
    }
    if ExampleTable in t {
      ScriptLaw(f, "pip", t, ExampleTable);
    }
    if PandasToLatexDemo in t {
      ScriptLaw(f, "pip", t, PandasToLatexDemo);
    }
  }

  /** The example R scripts sit in `src`, match an R pattern and no other,
      and no rule names them. */
  lemma RScriptFacts()
    ensures ChildOf(ExampleRPlot, Src) && ExampleRPlot !in ListedFiles
    ensures ChildOf(ExampleRegressions, Src) && ExampleRegressions !in ListedFiles
    ensures RScriptName(Name(ExampleRPlot)) && !NotebookName(Name(ExampleRPlot)) && !StataName(Name(ExampleRPlot))
    ensures RScriptName(Name(ExampleRegressions))
    ensures !NotebookName(Name(ExampleRegressions)) && !StataName(Name(ExampleRegressions))
  {
    RPlotUnlisted();
    RegressionsUnlisted();
    assert ExampleRPlot[..1] == Src && ExampleRegressions[..1] == Src;
  }

  lemma InstallPackagesFacts()
    ensures ChildOf(InstallPackages, Src) && InstallPackages !in ListedFiles
    ensures RScriptName(Name(InstallPackages))
    ensures !NotebookName(Name(InstallPackages)) && !StataName(Name(InstallPackages))
  {
    InstallPackagesUnlisted();
    assert InstallPackages[..1] == Src;
  }

  lemma InstallPackagesUnlisted()
    ensures InstallPackages !in ListedFiles
  {
  }

  lemma RPlotUnlisted()
    ensures ExampleRPlot !in ListedFiles
  {
  }

  lemma RegressionsUnlisted()
    ensures ExampleRegressions !in ListedFiles
  {
  }

  /** R with pixi keeps the R requirements, `pixi.toml` and the R scripts. */
  lemma RWithPixi(t: Tree)
    requires WellFormed(t) && Hook(NoFeatures.(r := true), "pixi", t).Success?
    ensures RRequirements in t ==> RRequirements in Hook(NoFeatures.(r := true), "pixi", t).value
    ensures PixiToml in t ==> PixiToml in Hook(NoFeatures.(r := true), "pixi", t).value
    ensures ExampleRPlot in t ==> ExampleRPlot in Hook(NoFeatures.(r := true), "pixi", t).value
    ensures ExampleRegressions in t ==> ExampleRegressions in Hook(NoFeatures.(r := true), "pixi", t).value
    ensures InstallPackages in t ==> InstallPackages in Hook(NoFeatures.(r := true), "pixi", t).value
  {
    var f := NoFeatures.(r := true);
    OptionFileLaw(f, "pixi", t);
    if PixiToml in t {
      ManifestLaw(f, "pixi", t, PixiToml);
    }
    RScriptsKept(f, "pixi", t);
  }

  /** With the R option on, the example R scripts stay. */
  lemma RScriptsKept(f: Flags, manager: string, t: Tree)
    requires WellFormed(t) && Hook(f, manager, t).Success? && f.r
    ensures ExampleRPlot in t ==> ExampleRPlot in Hook(f, manager, t).value
    ensures ExampleRegressions in t ==> ExampleRegressions in Hook(f, manager, t).value
    ensures InstallPackages in t ==> InstallPackages in Hook(f, manager, t).value
  {
    RScriptFacts();
    InstallPackagesFacts();
    if InstallPackages in t {
      PatternLaw(f, manager, t, InstallPackages);
    }
    if ExampleRPlot in t {
      PatternLaw(f, manager, t, ExampleRPlot);
    }
    if ExampleRegressions in t {
      PatternLaw(f, manager, t, ExampleRegressions);
    }
  }

  /** R alone, with conda: the R requirements, the R scripts and
      `environment.yml` stay. */
  lemma ROnly(t: Tree)
    requires WellFormed(t) && Hook(NoFeatures.(r := true), "conda", t).Success?
    ensures RRequirements in t ==> RRequirements in Hook(NoFeatures.(r := true), "conda", t).value
    ensures EnvironmentYml in t ==> EnvironmentYml in Hook(NoFeatures.(r := true), "conda", t).value
    ensures ExampleRPlot in t ==> ExampleRPlot in Hook(NoFeatures.(r := true), "conda", t).value
    ensures InstallPackages in t ==> InstallPackages in Hook(NoFeatures.(r := true), "conda", t).value
    ensures ExampleRegressions in t ==> ExampleRegressions in Hook(NoFeatures.(r := true), "conda", t).value
  {
    var f := NoFeatures.(r := true);
    OptionFileLaw(f, "conda", t);
    if EnvironmentYml in t {
      ManifestLaw(f, "conda", t, EnvironmentYml);
    }
    RScriptsKept(f, "conda", t);
  }

  /** The two WRDS pulls stay when selected. */
  lemma WrdsSources(t: Tree)
    requires WellFormed(t) && Hook(NoFeatures.(crspStock := true, crspCompustat := true), "pip", t).Success?
    ensures PullCrspStock in t ==>
      PullCrspStock in Hook(NoFeatures.(crspStock := true, crspCompustat := true), "pip", t).value
    ensures PullCrspCompustat in t ==>
      PullCrspCompustat in Hook(NoFeatures.(crspStock := true, crspCompustat := true), "pip", t).value
  {
    var f := NoFeatures.(crspStock := true, crspCompustat := true);
    if PullCrspStock in t {
      ScriptLaw(f, "pip", t, PullCrspStock);
    }
    if PullCrspCompustat in t {
      ScriptLaw(f, "pip", t, PullCrspCompustat);
    }
  }

  /** The example Stata script sits in `src`, matches the Stata pattern and
      no other, and no rule names it. */
  lemma StataScriptFacts()
    ensures ChildOf(ExampleStataPlot, Src) && ExampleStataPlot !in ListedFiles
    ensures StataName(Name(ExampleStataPlot))
    ensures !NotebookName(Name(ExampleStataPlot)) && !RScriptName(Name(ExampleStataPlot))
  {
    StataPlotUnlisted();
    assert ExampleStataPlot[..1] == Src;
  }

  lemma StataPlotUnlisted()
    ensures ExampleStataPlot !in ListedFiles
  {
  }

  /** Stata alone keeps the `.do` scripts. */
  lemma StataOnly(t: Tree)
    requires WellFormed(t) && Hook(NoFeatures.(stata := true), "pip", t).Success?
    ensures ExampleStataPlot in t ==> ExampleStataPlot in Hook(NoFeatures.(stata := true), "pip", t).value
  {
    StataScriptFacts();
    if ExampleStataPlot in t {
      PatternLaw(NoFeatures.(stata := true), "pip", t, ExampleStataPlot);
    }
  }
}
