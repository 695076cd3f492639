# cookiecutter_chartbook hooks, modelled in Dafny

The chartbook project template has two hook scripts. They decide which of
the template's files a new research project keeps. This project models
both hooks and proves what they promise.

- **Pre-generation hook** (`hooks/pre_gen_project.py`). It checks the
  project slug against `^[a-z][a-z0-9_]*$`. A bad slug is fatal. It warns
  about an e-mail address that is non-empty and has no `@`. It refuses R
  scripts combined with `pip` or `uv`, which cannot install R packages.
  Module `PreGen`.
- **Post-generation hook** (`hooks/post_gen_project.py`). It reads twelve
  feature flags through `is_truthy` (module `Truthiness`). It then applies
  a fixed, ordered list of removal calls to the rendered project: the
  environment manager's manifests; the LaTeX, notebook, R, Stata,
  chartbook and GitHub Actions groups; one script per data source; and
  the dependencies of notebooks 02 and 03 and of the public-repo pull and
  chart (module `PostGen`).
  - The three primitives are `remove_file`, `remove_dir` and
    `remove_files_by_pattern` (module `FileTree`). `fnmatch` is in module
    `Glob`.
  - Running an ordered list of calls is module `Actions`.
  - The hook ends by printing its "Next steps" lines (module `NextSteps`).
- **One generation run** (module `Generation`) chains the two hooks.

The generated project is a `Tree`: a finite map from paths (one string
per component) to `File` or `Dir`. The hook is the pure function
`Hook(flags, manager, tree)`. It returns the pruned tree, or the error
`os.remove` raises when a by-name or by-pattern removal reaches a
directory.

The central result is `PostGenLaws.HookResolution`. It states that the
hook on a real directory tree implements an independent retention table.
The table has:

- a by-name gate per listed file (`FileGate`);
- a per-suffix gate for names directly in `src` (`SuffixGate`);
- a per-directory gate for `reports`, `docs_src` and `.github` (`DirGate`).

The hook raises exactly when the table asks to delete a directory with
`os.remove`. Otherwise it keeps exactly what the table keeps.

`HookLaws` derives the per-file promises from that result: which
manifests each manager keeps, the notebook and public-repo dependencies,
the frame ("nothing else changes"), shrinking and idempotence. `Scenarios`
restates the expectations of the template's test suite.

## Model

| member | source | states |
|---|---|---|
| Glob.StarPattern | hooks/post_gen_project.py:35 | A `*` followed by a literal suffix matches exactly the names that end in that suffix |
| Glob.BareSuffixMatches | hooks/post_gen_project.py:35 | The star may match nothing, so a name that is only the suffix (`.r` for `*.r`) matches |
| Glob.LiteralMatchesItself | hooks/post_gen_project.py:35 | A pattern without wildcards matches exactly itself |
| FileTree.RemoveFile | hooks/post_gen_project.py:11-16 | An absent path changes nothing; a directory raises IsADirectory; otherwise exactly that path goes and nothing else changes |
| FileTree.RemoveDir | hooks/post_gen_project.py:19-24 | Only a directory is removed (an absent path or a plain file changes nothing), together with every entry below it; nothing else changes |
| FileTree.RemoveMatching | hooks/post_gen_project.py:27-37 | Nothing happens unless the directory exists. It raises iff a matching direct child is a directory; otherwise exactly the matching direct children go, and deeper entries stay |
| FileTree.RemoveFilesByPattern | hooks/post_gen_project.py:27-37 | Walking the `os.listdir` listing in order gives the order-free summary above. On failure it names the first matching directory of the listing |
| FileTree.FileHasNoChildren | hooks/post_gen_project.py:22-23 | In a real tree a plain file has nothing below it, so `remove_dir` on it has nothing to take |
| Actions.Apply | hooks/post_gen_project.py:68-158 | The calls run in order and the first that raises stops the run; a successful run only removes entries, never adds one or changes a kind |
| Actions.ApplyFrame | hooks/post_gen_project.py:68-158 | Whatever the calls, an entry that no call would hit in the original tree survives a successful run |
| Actions.StepSummary | hooks/post_gen_project.py:11-37 | One removal call raises exactly when it reaches a directory through `os.remove`; otherwise it removes exactly the entries it hits |
| Actions.ApplySummary | hooks/post_gen_project.py:68-158 | An ordered list of calls in which no `remove_dir` reaches a later call's target behaves as one filter on the original tree: it raises iff some call would raise there, else it keeps exactly the entries no call hits |
| Actions.ApplyIdempotent | hooks/post_gen_project.py:68-158 | Running such a list again on its own result changes nothing |
| Actions.ApplyKeepsWellFormed | hooks/post_gen_project.py:19-24 | Such a list keeps a real tree real: every remaining entry's parent directory remains |
| Truthiness.Lower | hooks/post_gen_project.py:44 | `str.lower` on ASCII only: each ASCII capital becomes its own lower-case letter, every other character stays, and no ASCII capital is left |
| Truthiness.IsTruthy | hooks/post_gen_project.py:40-44 | Defines `is_truthy`: a boolean passes through, a string counts when its lower-case form is y, yes, true or 1; `Truthiness.TruthyIffSpelling` states what that means |
| Truthiness.TruthyIffSpelling | hooks/post_gen_project.py:40-44 | A string is truthy iff it spells y, yes, true or 1 in any mix of letter case |
| Truthiness.RenderKeepsTruth | hooks/post_gen_project.py:48-61 | A flag printed into the hook as text (`True`/`False` for a boolean) reads back with the truth value it had |
| Truthiness.TruthyAccepted | hooks/post_gen_project.py:40-44 | YES, True, Y and 1 are truthy |
| Truthiness.TruthyRejected | hooks/post_gen_project.py:40-44 | n, no, the empty string, 0, "yes " and on are not truthy |
| PreGen.SlugPatternMatches | hooks/pre_gen_project.py:10 | The pattern accepts exactly a lower-case letter followed by lower-case letters, digits and underscores, where the last character may instead be one newline |
| PreGen.MatchSlug | hooks/pre_gen_project.py:10 | The regular-expression scan accepts exactly the documented slugs, plus one with a single trailing newline (Python's `$`) |
| PreGen.Validate | hooks/pre_gen_project.py:10-31 | InvalidSlug iff the slug pattern fails. The R error iff the slug passes, the R flag is truthy and the manager is pip or uv. The warning iff the slug passes and the e-mail is non-empty without `@` |
| PreGen.InvalidSlugShortCircuits | hooks/pre_gen_project.py:10-15 | A bad slug decides the result alone: the other inputs change nothing and no warning is printed |
| PreGen.EmailNeverFatal | hooks/pre_gen_project.py:18-20 | The e-mail address never changes the verdict |
| PreGen.CondaOrPixiAccepted | hooks/pre_gen_project.py:22-31 | With conda or pixi a valid slug passes whatever the R flag says |
| PreGen.OkMeansConsistent | hooks/pre_gen_project.py:10-31 | A passing validation implies the slug pattern holds and there is no R/pip-uv conflict |
| PreGen.RequestsRIsTruthy | hooks/pre_gen_project.py:26 | The pre-generation R test, with its own list of accepted words, agrees on every string with the post-generation `is_truthy` |
| PreGen.TestProjectRejected | hooks/pre_gen_project.py:10-15 | `Test-Project` is rejected; `test_project` passes with no warning |
| PreGen.RWithManagerExamples | tests/test_template.py:476-527 | R with pip or uv is refused; R with pixi passes |
| PreGen.EmailExamples | hooks/pre_gen_project.py:18-20 | An empty address gets no warning; `nobody` passes with a warning |
| PreGen.TrailingNewlineAccepted | hooks/pre_gen_project.py:10 | `abc` plus one newline passes the check though it breaks the documented rule; two newlines do not |
| PostGen.Plan | hooks/post_gen_project.py:68-158 | Defines the hook's removal calls for a selection: the rules below, concatenated in source order |
| PostGen.PlanCalls | hooks/post_gen_project.py:68-158 | The plan removes only listed files, the three optional directories and the five suffix patterns in `src`. It makes no call exactly when every option is on and the manager is none of pip, uv, conda and pixi |
| PostGen.Hook | hooks/post_gen_project.py:66-158 | The hook runs the plan on the generated tree; a successful run only removes entries. `PostGenLaws.HookResolution` states exactly which |
| PostGenFate.EnvironmentFate | hooks/post_gen_project.py:68-86 | The manager's by-name calls hit exactly: for pip environment.yml, pixi.toml and pyproject.toml; for uv environment.yml, pixi.toml and requirements.txt; for conda pixi.toml and pyproject.toml; for pixi environment.yml and pyproject.toml; for any other manager nothing. No `remove_dir` is made |
| PostGenFate.LatexFate | hooks/post_gen_project.py:88-94 | Without LaTeX the by-name calls hit exactly `.latexmkrc` and the two table scripts, and `remove_dir` hits exactly what lies within `reports` when it is a directory; with LaTeX nothing is hit |
| PostGenFate.NotebookFate | hooks/post_gen_project.py:96-107 | Without notebooks the pattern hits exactly the `_ipynb.py` names directly in a `src` directory; with them the by-name calls hit notebook 02 iff FRED is off and notebook 03 iff FRED and OFR are not both on |
| PostGenFate.RFate | hooks/post_gen_project.py:109-115 | Without R the calls hit exactly `r_requirements.txt` and the `.r`, `.R` and `.Rmd` names directly in a `src` directory; with R nothing is hit |
| PostGenFate.StataFate | hooks/post_gen_project.py:117-120 | The pattern hits exactly the `.do` names directly in a `src` directory, and only without Stata |
| PostGenFate.ChartbookFate | hooks/post_gen_project.py:122-126 | Without the chartbook the by-name call hits exactly `chartbook.toml` and `remove_dir` hits exactly what lies within `docs_src` when it is a directory; with it nothing is hit |
| PostGenFate.GitHubActionsFate | hooks/post_gen_project.py:128-131 | Only `remove_dir` is made: without GitHub Actions it hits exactly what lies within `.github` when it is a directory |
| PostGenFate.DataSourceFate | hooks/post_gen_project.py:133-158 | Each data-source script is hit exactly when its option is off; the public-repo pull and chart are hit unless FRED and OFR are both on; no `remove_dir` is made |
| PostGenFate.PlanFate | hooks/post_gen_project.py:68-158 | Rule by rule, which paths the plan's by-name and by-pattern calls hit and which its `remove_dir` calls hit |
| PostGenLaws.PlanNonInterfering | hooks/post_gen_project.py:88-131 | No `remove_dir` of the hook reaches a path a later call removes or the `src` directory a pattern lists |
| PostGenLaws.FileTableMatchesPlan | hooks/post_gen_project.py:68-158 | On a real tree, the table's by-name and by-pattern verdict on an entry agrees with what the plan's calls hit |
| PostGenLaws.DirTableMatchesPlan | hooks/post_gen_project.py:88-131 | The table's directory verdict agrees with what the plan's `remove_dir` calls hit |
| PostGenLaws.RaisesIffClash | hooks/post_gen_project.py:11-16 | Some call of the hook raises iff a by-name or by-pattern rule wants a directory gone |
| PostGenLaws.KeepIffRetained | hooks/post_gen_project.py:68-158 | An entry escapes every call of the hook iff the retention table keeps it |
| PostGenLaws.HookResolution | hooks/post_gen_project.py:66-158 | The hook fails iff the table asks `os.remove` to delete a directory. Otherwise its result is a sub-tree of the input holding exactly the entries the table retains |
| HookLaws.Fate | hooks/post_gen_project.py:68-158 | Outside the optional directories an entry survives a successful run iff no by-name or by-pattern rule wants it gone |
| HookLaws.ManifestLaw | hooks/post_gen_project.py:68-86 | pip keeps only `requirements.txt`; uv only `pyproject.toml`; conda `environment.yml` and `requirements.txt`; pixi `pixi.toml` and `requirements.txt`. Any other manager keeps all four |
| HookLaws.InstallManifestKept | hooks/post_gen_project.py:68-86 | Each known manager keeps the manifest it installs from |
| HookLaws.OptionFileLaw | hooks/post_gen_project.py:88-126 | `.latexmkrc`, `r_requirements.txt` and `chartbook.toml` each survive iff their option is on |
| HookLaws.OptionalDirLaw | hooks/post_gen_project.py:88-131 | `reports`, `docs_src` and `.github` survive as directories iff their option is on; a plain file of that name is left alone |
| HookLaws.PatternLaw | hooks/post_gen_project.py:96-120 | An unnamed entry directly in `src` survives iff every pattern it matches (notebook, R, Stata) has its option on |
| HookLaws.ScriptLaw | hooks/post_gen_project.py:136-158 | Each named Python script in `src` other than the notebooks survives iff its by-name gate (its data-source or LaTeX option) holds |
| HookLaws.NotebookScript | hooks/post_gen_project.py:96-107 | A notebook script survives iff notebooks are on and its by-name gate holds |
| HookLaws.NotebookLaw | hooks/post_gen_project.py:96-107 | Notebook 01 survives iff notebooks; 02 iff notebooks and FRED; 03 iff notebooks, FRED and OFR |
| HookLaws.PublicRepoLaw | hooks/post_gen_project.py:146-149 | The public-repo pull and its chart survive iff FRED and OFR are both on, whatever the notebook option |
| HookLaws.ExtensionLaw | hooks/post_gen_project.py:96-120 | Any entry directly in `src` with an R, Stata or notebook name goes when its option is off |
| HookLaws.Frame | hooks/post_gen_project.py:66-158 | Under a selection, an entry outside the optional directories that no rule names survives unchanged, unless it lies directly in `src` and matches a pattern (notebook, R or Stata) whose option is off |
| HookLaws.CleanTreeSucceeds | hooks/post_gen_project.py:11-16 | A tree with no directory where a file rule points never makes the hook raise |
| HookLaws.HookShrinks | hooks/post_gen_project.py:66-158 | The hook only removes entries, never changes a kind, and leaves a real tree |
| HookLaws.HookIdempotent | hooks/post_gen_project.py:66-158 | Running the hook again with the same answers on its own output changes nothing |
| Scenarios.TopLevelKept | hooks/post_gen_project.py:66-158 | A top-level entry no rule names survives every selection |
| Scenarios.SrcModuleKept | hooks/post_gen_project.py:96-120 | A `.py` module directly in `src` that no rule names and that is not a `_ipynb.py` notebook survives every selection |
| Scenarios.CommonFilesKept | tests/test_template.py:73-78 | README.md, dodo.py, .gitignore, src/settings.py and src/misc_tools.py survive every selection |
| Scenarios.MinimalPip | tests/test_template.py:67-96 | With every option off and pip, `requirements.txt` is the only manifest left. No optional file or directory survives, no named script in `src` survives, and no notebook, R or Stata name directly in `src` survives |
| Scenarios.FullConda | tests/test_template.py:99-135 | With every option on and conda, the hook raises only if `pixi.toml` or `pyproject.toml` is a directory, and otherwise removes exactly those two |
| Scenarios.NotebooksWithFredOnly | tests/test_template.py:138-153 | Notebooks with FRED keep notebooks 01 and 02 and drop 03 |
| Scenarios.NotebooksWithFredAndOfr | tests/test_template.py:156-170 | Notebooks with FRED and OFR keep all three notebooks |
| Scenarios.LatexOnly | tests/test_template.py:173-185 | LaTeX alone keeps `reports`, `.latexmkrc` and the two table scripts |
| Scenarios.RScriptsKept | hooks/post_gen_project.py:109-115 | With the R option on, the example R scripts stay |
| Scenarios.ROnly | tests/test_template.py:188-203 | R with conda keeps the R requirements, the R scripts and `environment.yml` |
| Scenarios.StataOnly | tests/test_template.py:206-215 | Stata alone keeps the `.do` script |
| Scenarios.WrdsSources | tests/test_template.py:218-229 | The CRSP pulls stay when selected |
| Scenarios.RWithPixi | tests/test_template.py:510-527 | R with pixi keeps the R requirements, `pixi.toml` and the three R scripts, `install_packages.r` included |
| NextSteps.InstallLines | hooks/post_gen_project.py:164-176 | The install lines are indented commands, and there are none exactly for an unknown manager |
| NextSteps.NextSteps | hooks/post_gen_project.py:161-178 | The printout starts with `cd <slug>` and ends with `doit`, every line indented. There are only those two lines iff the manager is unknown; the lines between are install lines |
| NextSteps.PrintedLines | hooks/post_gen_project.py:161-178 | The exact printout for pip, uv, conda, pixi and any other manager |
| NextSteps.MentionedManifests | hooks/post_gen_project.py:164-176 | For a dotless slug, the printout names `requirements.txt` iff pip, `environment.yml` iff conda, and no other manifest |
| Generation.Flag | hooks/post_gen_project.py:48-61 | The flag the post-generation hook reads from its printed text is `is_truthy` of the answer |
| Generation.Generate | hooks/pre_gen_project.py:10-29 | The run is refused iff the slug check fails or R is requested with pip or uv. It stops with a hook error iff validation passes and the pruning raises |
| Generation.GenerateSucceeds | hooks/post_gen_project.py:160-178 | A successful run carries the hook's result, the e-mail warning exactly for a non-empty address without `@`, and the printout for the slug |
| Generation.SlugHasNoDot | hooks/pre_gen_project.py:10 | A slug that passes the check has no dot |
| Generation.RFilesNeedCondaOrPixi | hooks/pre_gen_project.py:22-29 | R files survive a successful run only with a manager other than pip or uv: both hooks read the R option alike |
| Generation.PrintedManifestsKept | hooks/post_gen_project.py:164-176 | Every manifest the printed next steps name is still in the project |
| Generation.RWithPipOrUvRejected | tests/test_template.py:476-507 | R scripts with pip or uv stop the run before any file is touched |

Two behaviours of the hooks are worth stating plainly:

- `remove_file` checks only that the path exists, so `os.remove` on a
  directory raises (`hooks/post_gen_project.py:11-16`): IsADirectoryError
  on Linux, PermissionError on macOS. The model keeps that error as
  `IsADirectory`. `HookLaws.CleanTreeSucceeds` states when it
  cannot happen.
- The e-mail warning fires only for a non-empty address without `@`
  (`hooks/pre_gen_project.py:18-20`).

## Left out

- Template rendering of `{{ cookiecutter.* }}`, cruft and the copying of
  the template: the rendered values and the rendered tree are inputs.
- File contents (README text, manifest contents such as the R packages in
  `pixi.toml`): the tree records only paths and kinds.
- Real file-system I/O, `PROJECT_DIR` and `os.getcwd()`: the tree is
  passed in and returned.
- `sys.exit(1)` is the verdict `InvalidSlug` or `IncompatibleEnvironmentForR`.
  The printed error and progress wording is left out; only the
  "Next steps" lines and whether the e-mail warning appears are modelled.
- `fnmatch` bracket classes `[...]` and Windows case folding
  (`os.path.normcase`): no pattern of the hook uses them, and matching is
  POSIX case-sensitive.
- Truthiness.LowerChar: folds ASCII capitals only. Other characters that
  `str.lower` changes cannot produce y, e, s, t, r or u, so truthiness is
  unaffected.
- FileTree.RemoveMatching: its error names the directory and the pattern,
  not the matching path, because the `os.listdir` order is unspecified.
  `FileTree.RemoveFilesByPattern` names the path for a given listing.
- PreGen.TrailingNewlineAccepted: states the slug check's own logic. The
  typed slug is rendered between double quotes
  (`hooks/pre_gen_project.py:8`), and a newline there ends the string
  literal early, so the hook does not parse.
- PreGen.EmailNeverFatal: holds for the string the hook reads. The typed
  address is rendered between double quotes
  (`hooks/pre_gen_project.py:18`). A `"` or a backslash in it can make the
  hook fail to parse, or can change the string it reads: `\x40` reads as
  `@`, and `x" "y@z` reads as the two adjacent literals joined, `xy@z`.
- Generation.Generate: its inputs are the strings each hook reads after
  rendering, not the typed answers. A newline, a quote or a backslash in
  an answer (`hooks/pre_gen_project.py:8`, 18, 23-24;
  `hooks/post_gen_project.py:48-64`) can make a hook fail to parse or
  change what it reads. Neither effect is modelled.
- Generation.Generate: a run that raises keeps no partial tree. The
  entries removed before the raising call are not reported.
- The subprocess and syntax tests of the template (`doit list`, `doit`,
  `py_compile`, README contents) check the generated files' contents, not
  the hooks.
