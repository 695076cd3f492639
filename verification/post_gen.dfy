/** The post-generation hook: the ordered removal rules that prune the
    freshly generated project down to the selected features, and the
    per-path retention table they implement. */
module PostGen {
  import opened Wrappers
  import opened FileTree
  import opened Actions
  import Glob

  /** The twelve feature flags after `is_truthy`. */
  datatype Flags = Flags(
    latex: bool, notebooks: bool, r: bool, stata: bool, chartbook: bool, githubActions: bool,
    fred: bool, fedYieldCurve: bool, ofr: bool, bloomberg: bool, crspStock: bool, crspCompustat: bool)

  const Src: Path := ["src"]
  const Reports: Path := ["reports"]
  const DocsSrc: Path := ["docs_src"]
  const GitHub: Path := [".github"]

  const EnvironmentYml: Path := ["environment.yml"]
  const PixiToml: Path := ["pixi.toml"]
  const PyprojectToml: Path := ["pyproject.toml"]
  const RequirementsTxt: Path := ["requirements.txt"]
  const LatexmkRc: Path := [".latexmkrc"]
  const ExampleTable: Path := ["src", "example_table.py"]
  const PandasToLatexDemo: Path := ["src", "pandas_to_latex_demo.py"]
  const Notebook01: Path := ["src", "01_example_notebook_interactive_ipynb.py"]
  const Notebook02: Path := ["src", "02_example_with_dependencies_ipynb.py"]
  const Notebook03: Path := ["src", "03_public_repo_summary_charts_ipynb.py"]
  const RRequirements: Path := ["r_requirements.txt"]
  const ChartbookToml: Path := ["chartbook.toml"]
  const PullFred: Path := ["src", "pull_fred.py"]
  const TestPullFred: Path := ["src", "test_pull_fred.py"]
  const LoadFedYieldCurve: Path := ["src", "load_fed_yield_curve.py"]
  const PullOfrApiData: Path := ["src", "pull_ofr_api_data.py"]
  const PullPublicRepoData: Path := ["src", "pull_public_repo_data.py"]
  const ChartRelativeRepoRates: Path := ["src", "chart_relative_repo_rates.py"]
  const PullBloomberg: Path := ["src", "pull_bloomberg.py"]
  const PullCrspStock: Path := ["src", "pull_CRSP_stock.py"]
  const PullCrspCompustat: Path := ["src", "pull_CRSP_Compustat.py"]

  const Manifests: set<Path> := {EnvironmentYml, PixiToml, PyprojectToml, RequirementsTxt}

  /** The Python scripts in `src`, other than notebooks, that a rule names. */
  const SrcScripts: set<Path> := {
    ExampleTable, PandasToLatexDemo, PullFred, TestPullFred, LoadFedYieldCurve, PullOfrApiData,
    PullPublicRepoData, ChartRelativeRepoRates, PullBloomberg, PullCrspStock, PullCrspCompustat}

  /** Every file the hook may delete by name. */
  const ListedFiles: set<Path> :=
    Manifests + {LatexmkRc, RRequirements, ChartbookToml} + {Notebook02, Notebook03} + SrcScripts

  /** The directories the hook may delete with everything inside. */
  const OptionalDirs: set<Path> := {Reports, DocsSrc, GitHub}

  /** The suffixes of the patterns matched against the names directly in `src`. */
  const PatternSuffixes: set<string> := {"_ipynb.py", ".r", ".R", ".Rmd", ".do"}

  // ---------------------------------------------------------------------
  // The rules, in the order the hook applies them.

  function EnvironmentRule(manager: string): seq<Action> {
    if manager == "pip" then
      [RemoveFileAt(EnvironmentYml), RemoveFileAt(PixiToml), RemoveFileAt(PyprojectToml)]
    else if manager == "uv" then
      [RemoveFileAt(EnvironmentYml), RemoveFileAt(PixiToml), RemoveFileAt(RequirementsTxt)]
    else if manager == "conda" then
      [RemoveFileAt(PixiToml), RemoveFileAt(PyprojectToml)]
    else if manager == "pixi" then
      [RemoveFileAt(EnvironmentYml), RemoveFileAt(PyprojectToml)]
    else
      []
  }

  function LatexRule(f: Flags): seq<Action> {
    if f.latex then []
    else [RemoveDirAt(Reports), RemoveFileAt(LatexmkRc), RemoveFileAt(ExampleTable), RemoveFileAt(PandasToLatexDemo)]
  }

  /** Without notebooks every notebook script goes; with them, notebook 02
      needs FRED and notebook 03 needs FRED and OFR. */
  function NotebookRule(f: Flags): seq<Action> {
    if !f.notebooks then
      [RemoveMatchingIn(Src, "*_ipynb.py")]
    else
      (if !f.fred then [RemoveFileAt(Notebook02)] else [])
      + (if !(f.fred && f.ofr) then [RemoveFileAt(Notebook03)] else [])
  }

  function RRule(f: Flags): seq<Action> {
    if f.r then []
    else [RemoveMatchingIn(Src, "*.r"), RemoveMatchingIn(Src, "*.R"), RemoveMatchingIn(Src, "*.Rmd"),
          RemoveFileAt(RRequirements)]
  }

  function StataRule(f: Flags): seq<Action> {
    if f.stata then [] else [RemoveMatchingIn(Src, "*.do")]
  }

  function ChartbookRule(f: Flags): seq<Action> {
    if f.chartbook then [] else [RemoveFileAt(ChartbookToml), RemoveDirAt(DocsSrc)]
  }

  function GitHubActionsRule(f: Flags): seq<Action> {
    if f.githubActions then [] else [RemoveDirAt(GitHub)]
  }

  function FredRule(f: Flags): seq<Action> {
    if f.fred then [] else [RemoveFileAt(PullFred), RemoveFileAt(TestPullFred)]
  }

  function FedYieldCurveRule(f: Flags): seq<Action> {
    if f.fedYieldCurve then [] else [RemoveFileAt(LoadFedYieldCurve)]
  }

  function OfrRule(f: Flags): seq<Action> {
    if f.ofr then [] else [RemoveFileAt(PullOfrApiData)]
  }

  /** The public-repo pull and its chart need both FRED and OFR. */
  function PublicRepoRule(f: Flags): seq<Action> {
    if f.fred && f.ofr then [] else [RemoveFileAt(PullPublicRepoData), RemoveFileAt(ChartRelativeRepoRates)]
  }

  function BloombergRule(f: Flags): seq<Action> {
    if f.bloomberg then [] else [RemoveFileAt(PullBloomberg)]
  }

  function CrspStockRule(f: Flags): seq<Action> {
    if f.crspStock then [] else [RemoveFileAt(PullCrspStock)]
  }

  function CrspCompustatRule(f: Flags): seq<Action> {
    if f.crspCompustat then [] else [RemoveFileAt(PullCrspCompustat)]
  }

  /** The seven data-source rules, in source order. */
  function DataSourceRules(f: Flags): seq<Action> {
    FredRule(f) + FedYieldCurveRule(f) + OfrRule(f) + PublicRepoRule(f)
    + BloombergRule(f) + CrspStockRule(f) + CrspCompustatRule(f)
  }

  /** The calls the hook can make at all: a by-name removal of a listed
      file, a `remove_dir` of an optional directory, or a suffix pattern
      in `src`. */
  predicate KnownCall(a: Action) {
    match a
    case RemoveFileAt(q) => q in ListedFiles
    case RemoveDirAt(d) => d in OptionalDirs
    case RemoveMatchingIn(d, pattern) => d == Src && |pattern| > 0 && pattern[0] == '*' && pattern[1..] in PatternSuffixes
  }

  predicate AllKnown(calls: seq<Action>) {
    forall a | a in calls :: KnownCall(a)
  }

  /** Every option on. */
  const AllOn: Flags := Flags(true, true, true, true, true, true, true, true, true, true, true, true)

  /** The hook's removal calls for one selection, in source order. */
  function Plan(f: Flags, manager: string): seq<Action> {
    EnvironmentRule(manager) + LatexRule(f) + NotebookRule(f) + RRule(f) + StataRule(f)
    + ChartbookRule(f) + GitHubActionsRule(f) + DataSourceRules(f)
  }

  /** The plan makes only known calls, and it makes none exactly when every
      option is on and the manager is none of the four the hook knows. */
  lemma PlanCalls(f: Flags, manager: string)
    ensures AllKnown(Plan(f, manager))
    ensures Plan(f, manager) == [] <==> f == AllOn && manager !in {"pip", "uv", "conda", "pixi"}
  {
    EnvironmentRuleKnown(manager);
    FlagRulesKnown(f);
    DataSourceRulesKnown(f);
  }

  lemma EnvironmentRuleKnown(manager: string)
    ensures AllKnown(EnvironmentRule(manager))
  {
  }

  lemma FlagRulesKnown(f: Flags)
    ensures AllKnown(LatexRule(f)) && AllKnown(NotebookRule(f)) && AllKnown(RRule(f))
    ensures AllKnown(StataRule(f)) && AllKnown(ChartbookRule(f)) && AllKnown(GitHubActionsRule(f))
  {
    assert "*_ipynb.py"[1..] == "_ipynb.py" && "*.Rmd"[1..] == ".Rmd";
    assert "*.r"[1..] == ".r" && "*.R"[1..] == ".R" && "*.do"[1..] == ".do";
  }

  lemma DataSourceRulesKnown(f: Flags)
    ensures AllKnown(DataSourceRules(f))
  {
    assert AllKnown(FredRule(f)) && AllKnown(FedYieldCurveRule(f)) && AllKnown(OfrRule(f));
    assert AllKnown(PublicRepoRule(f)) && AllKnown(BloombergRule(f));
    assert AllKnown(CrspStockRule(f)) && AllKnown(CrspCompustatRule(f));
  }

  /** The hook on the generated tree `t`: it only ever removes entries. */
  function Hook(f: Flags, manager: string, t: Tree): (r: Result<Tree, FsError>)
    ensures r.Success? ==> Shrinks(r.value, t)
  {
    Apply(t, Plan(f, manager))
  }

  // ---------------------------------------------------------------------
  // The retention table: for each path, the selection under which it stays.

  /** The condition under which a file the hook names stays; every other
      path is not subject to a by-name rule. */
  function FileGate(f: Flags, manager: string, p: Path): bool {
    if p == EnvironmentYml then manager != "pip" && manager != "uv" && manager != "pixi"
    else if p == PixiToml then manager != "pip" && manager != "uv" && manager != "conda"
    else if p == PyprojectToml then manager != "pip" && manager != "conda" && manager != "pixi"
    else if p == RequirementsTxt then manager != "uv"
    else if p == LatexmkRc || p == ExampleTable || p == PandasToLatexDemo then f.latex
    else if p == Notebook02 then f.notebooks && f.fred
    else if p == Notebook03 then f.notebooks && f.fred && f.ofr
    else if p == RRequirements then f.r
    else if p == ChartbookToml then f.chartbook
    else if p == PullFred || p == TestPullFred then f.fred
    else if p == LoadFedYieldCurve then f.fedYieldCurve
    else if p == PullOfrApiData then f.ofr
    else if p == PullPublicRepoData || p == ChartRelativeRepoRates then f.fred && f.ofr
    else if p == PullBloomberg then f.bloomberg
    else if p == PullCrspStock then f.crspStock
    else if p == PullCrspCompustat then f.crspCompustat
    else true
  }

  /** The condition under which a name directly in `src` survives the
      pattern rules. */
  predicate SuffixGate(f: Flags, name: string) {
    && (NotebookName(name) ==> f.notebooks)
    && (RScriptName(name) ==> f.r)
    && (StataName(name) ==> f.stata)
  }

  predicate NotebookName(name: string) {
    Glob.EndsWith(name, "_ipynb.py")
  }

  /** R extensions are matched case-sensitively, as three separate patterns. */
  predicate RScriptName(name: string) {
    Glob.EndsWith(name, ".r") || Glob.EndsWith(name, ".R") || Glob.EndsWith(name, ".Rmd")
  }

  predicate StataName(name: string) {
    Glob.EndsWith(name, ".do")
  }

  /** The flag that keeps each optional directory. */
  function DirGate(f: Flags, d: Path): bool {
    if d == Reports then f.latex
    else if d == DocsSrc then f.chartbook
    else if d == GitHub then f.githubActions
    else true
  }

  /** The by-name and by-pattern rules want `p` gone. */
  predicate FileRuleRemoves(f: Flags, manager: string, p: Path) {
    !FileGate(f, manager, p) || (ChildOf(p, Src) && !SuffixGate(f, Name(p)))
  }

  /** A directory rule removes `p` with the directory `d` it lies in. */
  predicate DirRuleRemoves(f: Flags, t: Tree, p: Path) {
    exists d | d in OptionalDirs :: IsDir(t, d) && Within(p, d) && !DirGate(f, d)
  }

  /** `p` is in `t` and stays. */
  predicate Retained(f: Flags, manager: string, t: Tree, p: Path) {
    p in t && !FileRuleRemoves(f, manager, p) && !DirRuleRemoves(f, t, p)
  }

  /** A by-name or by-pattern rule reaches a directory: `os.remove` raises. */
  predicate Clash(f: Flags, manager: string, t: Tree) {
    exists p | p in t && t[p] == Dir :: FileRuleRemoves(f, manager, p)
  }
}
