/** Consequences of `HookResolution` that the template promises for
    particular files and selections: which manifest each environment manager
    keeps, the notebook and public-repo dependencies, what the hook never
    touches, and that a second run changes nothing. */
module HookLaws {
  import opened Wrappers
  import opened FileTree
  import opened Actions
  import opened PostGen
  import opened PostGenLaws
  import Glob

  /** No optional directory holds `p`, so no `remove_dir` reaches it. */
  lemma OutsideOptionalDirs(f: Flags, t: Tree, p: Path)
    requires |p| > 0 && p[0] != "reports" && p[0] != "docs_src" && p[0] != ".github"
    ensures !DirRuleRemoves(f, t, p)
  {
    forall d | d in OptionalDirs
      ensures !Within(p, d)
    {
      assert |d| == 1;
    }
  }

  /** Outside the optional directories an entry survives a successful run
      exactly when no by-name or by-pattern rule wants it gone. */
  lemma Fate(f: Flags, manager: string, t: Tree, p: Path)
    requires WellFormed(t) && Hook(f, manager, t).Success? && p in t
    requires |p| > 0 && p[0] != "reports" && p[0] != "docs_src" && p[0] != ".github"
    ensures p in Hook(f, manager, t).value <==> !FileRuleRemoves(f, manager, p)
  {
    HookResolution(f, manager, t);
    OutsideOptionalDirs(f, t, p);
  }

  // ---------------------------------------------------------------------
  // The environment manager picks the manifests.

  /** The manifests each manager keeps; an unknown manager keeps all four. */
  function ManifestsKept(manager: string): set<Path> {
    match manager
    case "pip" => {RequirementsTxt}
    case "uv" => {PyprojectToml}
    case "conda" => {EnvironmentYml, RequirementsTxt}
    case "pixi" => {PixiToml, RequirementsTxt}
    case _ => Manifests
  }

  lemma ManifestLaw(f: Flags, manager: string, t: Tree, q: Path)
    requires WellFormed(t) && Hook(f, manager, t).Success?
    requires q in Manifests && q in t
    ensures q in Hook(f, manager, t).value <==> q in ManifestsKept(manager)
  {
    Fate(f, manager, t, q);
    assert !ChildOf(q, Src);
  }

  /** Whatever the selection, the manifest the printed install step reads
      is still there. */
  lemma InstallManifestKept(f: Flags, manager: string, t: Tree)
    requires WellFormed(t) && Hook(f, manager, t).Success?
    ensures manager == "pip" && RequirementsTxt in t ==> RequirementsTxt in Hook(f, manager, t).value
    ensures manager == "uv" && PyprojectToml in t ==> PyprojectToml in Hook(f, manager, t).value
    ensures manager == "conda" && EnvironmentYml in t ==> EnvironmentYml in Hook(f, manager, t).value
    ensures manager == "pixi" && PixiToml in t ==> PixiToml in Hook(f, manager, t).value
  {
    if RequirementsTxt in t {
      ManifestLaw(f, manager, t, RequirementsTxt);
    }
    if PyprojectToml in t {
      ManifestLaw(f, manager, t, PyprojectToml);
    }
    if EnvironmentYml in t {
      ManifestLaw(f, manager, t, EnvironmentYml);
    }
    if PixiToml in t {
      ManifestLaw(f, manager, t, PixiToml);
    }
  }

  // ---------------------------------------------------------------------
  // Files and directories that follow one option.

  /** `.latexmkrc`, `r_requirements.txt` and `chartbook.toml` each stay
      exactly when their option is on. */
  lemma OptionFileLaw(f: Flags, manager: string, t: Tree)
    requires WellFormed(t) && Hook(f, manager, t).Success?
    ensures LatexmkRc in t ==> (LatexmkRc in Hook(f, manager, t).value <==> f.latex)
    ensures RRequirements in t ==> (RRequirements in Hook(f, manager, t).value <==> f.r)
    ensures ChartbookToml in t ==> (ChartbookToml in Hook(f, manager, t).value <==> f.chartbook)
  {
    OptionFileRules(f, manager);
    if LatexmkRc in t {
      Fate(f, manager, t, LatexmkRc);
    }
    if RRequirements in t {
      Fate(f, manager, t, RRequirements);
    }
    if ChartbookToml in t {
      Fate(f, manager, t, ChartbookToml);
    }
  }

  lemma OptionFileRules(f: Flags, manager: string)
    ensures FileRuleRemoves(f, manager, LatexmkRc) == !f.latex
    ensures FileRuleRemoves(f, manager, RRequirements) == !f.r
    ensures FileRuleRemoves(f, manager, ChartbookToml) == !f.chartbook
  {
    assert !ChildOf(LatexmkRc, Src) && !ChildOf(RRequirements, Src) && !ChildOf(ChartbookToml, Src);
  }

  /** An optional directory stays exactly when its option is on; a plain
      file of the same name is left alone. */
  lemma OptionalDirLaw(f: Flags, manager: string, t: Tree, d: Path)
    requires WellFormed(t) && Hook(f, manager, t).Success?
    requires d in OptionalDirs && d in t
    ensures d in Hook(f, manager, t).value <==> !IsDir(t, d) || DirGate(f, d)
  {
    OptionalDirRules(f, manager, t, d);
    HookResolution(f, manager, t);
    assert d in Hook(f, manager, t).value <==> Retained(f, manager, t, d);
  }

  /** Only the directory's own `remove_dir` reaches an optional directory. */
  lemma OptionalDirRules(f: Flags, manager: string, t: Tree, d: Path)
    requires d in OptionalDirs
    ensures !FileRuleRemoves(f, manager, d)
    ensures DirRuleRemoves(f, t, d) <==> IsDir(t, d) && !DirGate(f, d)
  {
    OptionalDirUnlisted(d);
    UnlistedGate(f, manager, d);
    assert !ChildOf(d, Src);
    if IsDir(t, d) && !DirGate(f, d) {
      assert Within(d, d);
    }
    forall e | e in OptionalDirs && Within(d, e)
      ensures e == d
    {
      assert |d| == 1 && |e| == 1;
    }
  }

  lemma OptionalDirUnlisted(d: Path)
    requires d in OptionalDirs
    ensures d !in ListedFiles && |d| == 1
  {
    if d == Reports {
    } else if d == DocsSrc {
    } else {
      assert d == GitHub;
    }
  }

  // ---------------------------------------------------------------------
  // Scripts in `src`.

  /** An entry directly in `src` that no rule names survives exactly when
      the options of the patterns it matches are on. */
  lemma PatternLaw(f: Flags, manager: string, t: Tree, p: Path)
    requires WellFormed(t) && p in t
    requires ChildOf(p, Src) && p !in ListedFiles
    ensures Hook(f, manager, t).Success? ==> (p in Hook(f, manager, t).value <==> SuffixGate(f, Name(p)))
  {
    UnlistedGate(f, manager, p);
    SrcEntryFate(f, manager, t, p);
  }

  lemma SrcEntryFate(f: Flags, manager: string, t: Tree, p: Path)
    requires WellFormed(t) && p in t
    requires ChildOf(p, Src) && FileGate(f, manager, p)
    ensures Hook(f, manager, t).Success? ==> (p in Hook(f, manager, t).value <==> SuffixGate(f, Name(p)))
  {
    assert p[..1] == Src;
    if Hook(f, manager, t).Success? {
      Fate(f, manager, t, p);
    }
  }

  /** A listed Python script in `src` that is no notebook survives exactly
      under its by-name gate: no pattern matches a `.py` name other than a
      notebook's. */
  lemma ScriptLaw(f: Flags, manager: string, t: Tree, p: Path)
    requires WellFormed(t) && Hook(f, manager, t).Success? && p in t
    requires p in SrcScripts
    ensures p in Hook(f, manager, t).value <==> FileGate(f, manager, p)
  {
    SrcScriptSuffix(f, p);
    Fate(f, manager, t, p);
  }

  /** A notebook script survives when notebooks are selected and its
      by-name gate lets it through. */
  lemma NotebookScript(f: Flags, manager: string, t: Tree, p: Path)
    requires WellFormed(t) && Hook(f, manager, t).Success? && p in t
    requires p == Notebook01 || p == Notebook02 || p == Notebook03
    ensures p in Hook(f, manager, t).value <==> FileGate(f, manager, p) && f.notebooks
  {
    NotebookRules(f, manager, p);
    Fate(f, manager, t, p);
  }

  /** A notebook script is reached by its by-name rule and the notebook
      pattern only. */
  lemma NotebookRules(f: Flags, manager: string, p: Path)
    requires p == Notebook01 || p == Notebook02 || p == Notebook03
    ensures p[0] == "src"
    ensures FileRuleRemoves(f, manager, p) <==> !FileGate(f, manager, p) || !f.notebooks
  {
    assert ChildOf(p, Src);
    PyIsNoScript(Name(p));
    assert NotebookName(Name(p));
  }

  /** The by-name gates of the three notebooks. */
  lemma NotebookGates(f: Flags, manager: string)
    ensures FileGate(f, manager, Notebook01)
    ensures FileGate(f, manager, Notebook02) == (f.notebooks && f.fred)
    ensures FileGate(f, manager, Notebook03) == (f.notebooks && f.fred && f.ofr)
  {
  }

  /** Notebook 01 needs only the notebook option; notebook 02 also needs
      FRED, and notebook 03 both FRED and OFR. */
  lemma NotebookLaw(f: Flags, manager: string, t: Tree)
    requires WellFormed(t) && Hook(f, manager, t).Success?
    ensures Notebook01 in t ==> (Notebook01 in Hook(f, manager, t).value <==> f.notebooks)
    ensures Notebook02 in t ==> (Notebook02 in Hook(f, manager, t).value <==> f.notebooks && f.fred)
    ensures Notebook03 in t ==> (Notebook03 in Hook(f, manager, t).value <==> f.notebooks && f.fred && f.ofr)
  {
    NotebookGates(f, manager);
    if Notebook01 in t {
      NotebookScript(f, manager, t, Notebook01);
    }
    if Notebook02 in t {
      NotebookScript(f, manager, t, Notebook02);
    }
    if Notebook03 in t {
      NotebookScript(f, manager, t, Notebook03);
    }
  }

  /** The public-repo pull and its chart stay only with both FRED and OFR. */
  lemma PublicRepoLaw(f: Flags, manager: string, t: Tree)
    requires WellFormed(t) && Hook(f, manager, t).Success?
    ensures PullPublicRepoData in t ==> (PullPublicRepoData in Hook(f, manager, t).value <==> f.fred && f.ofr)
    ensures ChartRelativeRepoRates in t ==> (ChartRelativeRepoRates in Hook(f, manager, t).value <==> f.fred && f.ofr)
  {
    if PullPublicRepoData in t {
      ScriptLaw(f, manager, t, PullPublicRepoData);
    }
    if ChartRelativeRepoRates in t {
      ScriptLaw(f, manager, t, ChartRelativeRepoRates);
    }
  }

  /** Every script in `src` with an R or Stata extension follows its option. */
  lemma ExtensionLaw(f: Flags, manager: string, t: Tree, p: Path)
    requires WellFormed(t) && Hook(f, manager, t).Success? && p in t && ChildOf(p, Src)
    ensures RScriptName(Name(p)) && !f.r ==> p !in Hook(f, manager, t).value
    ensures StataName(Name(p)) && !f.stata ==> p !in Hook(f, manager, t).value
    ensures NotebookName(Name(p)) && !f.notebooks ==> p !in Hook(f, manager, t).value
  {
    assert p[..1] == Src;
    Fate(f, manager, t, p);
  }

  // ---------------------------------------------------------------------
  // What the hook leaves alone, and repeated runs.

  /** Under the selection `f`, no rule names `p` or lies over it, and
      directly in `src` every pattern it matches has its option on. */
  predicate Spared(f: Flags, p: Path) {
    && |p| > 0 && p[0] != "reports" && p[0] != "docs_src" && p[0] != ".github"
    && p !in ListedFiles
    && (ChildOf(p, Src) ==>
          && (NotebookName(Name(p)) ==> f.notebooks)
          && (RScriptName(Name(p)) ==> f.r)
          && (StataName(Name(p)) ==> f.stata))
  }

  lemma Frame(f: Flags, manager: string, t: Tree, p: Path)
    requires WellFormed(t) && p in t && Spared(f, p)
    ensures Hook(f, manager, t).Success? ==>
      p in Hook(f, manager, t).value && Hook(f, manager, t).value[p] == t[p]
  {
    if Hook(f, manager, t).Success? {
      UnlistedGate(f, manager, p);
      Fate(f, manager, t, p);
    }
  }

  /** No listed path is a directory, nor any directory in `src` named like a
      script the patterns remove. */
  predicate NoDirectoryInTheWay(t: Tree) {
    && (forall p | p in ListedFiles :: !IsDir(t, p))
    && (forall p | p in t && t[p] == Dir && ChildOf(p, Src) ::
          !NotebookName(Name(p)) && !RScriptName(Name(p)) && !StataName(Name(p)))
  }

  /** On such a tree the hook cannot raise, whatever the selection. */
  lemma CleanTreeSucceeds(f: Flags, manager: string, t: Tree)
    requires WellFormed(t) && NoDirectoryInTheWay(t)
    ensures Hook(f, manager, t).Success?
  {
    HookResolution(f, manager, t);
    forall p | p in t && t[p] == Dir
      ensures !FileRuleRemoves(f, manager, p)
    {
      assert IsDir(t, p);
      assert p !in ListedFiles;
      assert FileGate(f, manager, p);
    }
  }

  /** The hook never adds or changes entries and keeps the tree well formed. */
  lemma HookShrinks(f: Flags, manager: string, t: Tree)
    requires WellFormed(t) && Hook(f, manager, t).Success?
    ensures Shrinks(Hook(f, manager, t).value, t)
    ensures WellFormed(Hook(f, manager, t).value)
  {
    HookResolution(f, manager, t);
    PlanNonInterfering(f, manager);
    ApplyKeepsWellFormed(t, Plan(f, manager));
  }

  /** Running the hook again on its own output changes nothing. */
  lemma HookIdempotent(f: Flags, manager: string, t: Tree)
    requires Hook(f, manager, t).Success?
    ensures Hook(f, manager, Hook(f, manager, t).value) == Hook(f, manager, t)
  {
    PlanNonInterfering(f, manager);
    ApplyIdempotent(t, Plan(f, manager));
  }
}
