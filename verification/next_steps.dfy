/** The "Next steps" lines the post-generation hook prints after pruning:
    change into the project, the environment manager's install commands,
    then `doit`. */
module NextSteps {
  import PreGen

  /** `w` occurs somewhere in `line`. */
  predicate Contains(line: string, w: string)
    decreases |line|
  {
    |w| <= |line| && (line[..|w|] == w || (|line| > 0 && Contains(line[1..], w)))
  }

  const Backslash: char := '\\'

  /** A printed step: two spaces, then a command. */
  predicate Indented(line: string) {
    |line| > 2 && line[0] == ' ' && line[1] == ' '
  }

  const VenvCommand: string := "  python -m venv .venv"
  const ActivateCommand: string :=
    "  source .venv/bin/activate" + "  # Windows: .venv" + [Backslash] + "Scripts" + [Backslash] + "activate"
  const PipInstallCommand: string := "  pip install -r " + "requirements.txt"
  const CondaCreateCommand: string := "  conda env create -f " + "environment.yml"

  /** The commands that set up the environment; none for an unknown manager. */
  function InstallLines(slug: string, manager: string): (lines: seq<string>)
    ensures forall l | l in lines :: Indented(l)
    ensures |lines| == 0 <==> !KnownManager(manager)
  {
    if manager == "pip" then
      assert Indented(VenvCommand) && Indented(ActivateCommand) && Indented(PipInstallCommand);
      [VenvCommand, ActivateCommand, PipInstallCommand]
    else if manager == "uv" then ["  uv sync"]
    else if manager == "conda" then [CondaCreateCommand, "  conda activate " + slug]
    else if manager == "pixi" then ["  pixi install"]
    else []
  }

  predicate KnownManager(manager: string) {
    manager == "pip" || manager == "uv" || manager == "conda" || manager == "pixi"
  }

  /** The lines after the "Next steps:" heading. */
  function NextSteps(slug: string, manager: string): (lines: seq<string>)
    ensures |lines| >= 2 && lines[0] == "  cd " + slug && lines[|lines| - 1] == "  doit"
    ensures forall i | 0 <= i < |lines| :: Indented(lines[i])
    ensures |lines| == 2 <==> !KnownManager(manager)
    ensures forall i | 0 < i < |lines| - 1 :: lines[i] in InstallLines(slug, manager)
  {
    var install := InstallLines(slug, manager);
    var lines := ["  cd " + slug] + install + ["  doit"];
    assert forall i | 0 < i < |lines| - 1 :: lines[i] == install[i - 1];
    lines
  }

  /** The printout for each manager, line by line. */
  lemma PrintedLines(slug: string, manager: string)
    ensures manager == "pip" ==> (NextSteps(slug, manager) ==
      ["  cd " + slug, "  python -m venv .venv", ActivateCommand, "  pip install -r requirements.txt", "  doit"])
    ensures manager == "uv" ==> NextSteps(slug, manager) == ["  cd " + slug, "  uv sync", "  doit"]
    ensures manager == "conda" ==> (NextSteps(slug, manager) ==
      ["  cd " + slug, "  conda env create -f environment.yml", "  conda activate " + slug, "  doit"])
    ensures manager == "pixi" ==> NextSteps(slug, manager) == ["  cd " + slug, "  pixi install", "  doit"]
    ensures !KnownManager(manager) ==> NextSteps(slug, manager) == ["  cd " + slug, "  doit"]
  {
    CommandTexts();
  }

  lemma CommandTexts()
    ensures PipInstallCommand == "  pip install -r requirements.txt"
    ensures CondaCreateCommand == "  conda env create -f environment.yml"
  {
  }

  /** A character of a word that occurs in a line occurs in the line. */
  lemma {:induction false} ContainsChar(line: string, w: string, c: char)
    requires Contains(line, w) && c in w
    ensures c in line
    decreases |line|
  {
    if line[..|w|] == w {
      var k :| 0 <= k < |w| && w[k] == c;
      assert line[k] == c;
    } else {
      ContainsChar(line[1..], w, c);
      var k :| 0 <= k < |line[1..]| && line[1..][k] == c;
      assert line[k + 1] == c;
    }
  }

  /** A line lacking one of the characters of `w` does not contain `w`. */
  lemma Absent(line: string, w: string, c: char)
    requires c in w && c !in line
    ensures !Contains(line, w)
  {
    if Contains(line, w) {
      ContainsChar(line, w, c);
    }
  }

  /** A line ending in `w` contains it. */
  lemma {:induction false} ContainsEnd(a: string, w: string)
    ensures Contains(a + w, w)
    decreases |a|
  {
    if |a| == 0 {
      assert a + w == w;
    } else {
      assert (a + w)[1..] == a[1..] + w;
      ContainsEnd(a[1..], w);
    }
  }

  /** The four manifest files a project may hold. */
  const ManifestNames: set<string> := {"environment.yml", "pixi.toml", "pyproject.toml", "requirements.txt"}

  /** `name` appears on some printed line. */
  predicate Mentions(lines: seq<string>, name: string) {
    exists line | line in lines :: Contains(line, name)
  }

  lemma NotInConcat(a: string, b: string, c: char)
    requires c !in a && c !in b
    ensures c !in a + b
  {
  }

  /** Letters that each dotted command line lacks, piece by piece: each
      manifest name has one of them. */
  lemma VenvLetters()
    ensures 'r' !in VenvCommand && 'i' !in VenvCommand
  {
  }

  lemma ActivateLetters()
    ensures 'm' !in ActivateCommand
  {
    var a, b, c, d := "  source .venv/bin/activate", "  # Windows: .venv", "Scripts", "activate";
    assert 'm' !in a && 'm' !in b && 'm' !in c && 'm' !in d && 'm' !in [Backslash];
    NotInConcat(a, b, 'm');
    NotInConcat(a + b, [Backslash], 'm');
    NotInConcat(a + b + [Backslash], c, 'm');
    NotInConcat(a + b + [Backslash] + c, [Backslash], 'm');
    NotInConcat(a + b + [Backslash] + c + [Backslash], d, 'm');
  }

  lemma PipInstallLetters()
    ensures 'y' !in PipInstallCommand && 'o' !in PipInstallCommand
  {
    var a, b := "  pip install -r ", "requirements.txt";
    assert 'y' !in a && 'o' !in a;
    assert 'y' !in b && 'o' !in b;
  }

  lemma CondaCreateLetters()
    ensures 'p' !in CondaCreateCommand && 'q' !in CondaCreateCommand
  {
    var a, b := "  conda env create -f ", "environment.yml";
    assert 'p' !in a && 'q' !in a;
    assert 'p' !in b && 'q' !in b;
  }

  lemma EnvironmentYmlLines()
    ensures !Contains(VenvCommand, "environment.yml") && !Contains(ActivateCommand, "environment.yml")
    ensures !Contains(PipInstallCommand, "environment.yml") && Contains(CondaCreateCommand, "environment.yml")
  {
    VenvLetters();
    ActivateLetters();
    PipInstallLetters();
    Absent(VenvCommand, "environment.yml", 'r');
    Absent(ActivateCommand, "environment.yml", 'm');
    Absent(PipInstallCommand, "environment.yml", 'y');
    ContainsEnd("  conda env create -f ", "environment.yml");
  }

  lemma PixiTomlLines()
    ensures !Contains(VenvCommand, "pixi.toml") && !Contains(ActivateCommand, "pixi.toml")
    ensures !Contains(PipInstallCommand, "pixi.toml") && !Contains(CondaCreateCommand, "pixi.toml")
  {
    VenvLetters();
    ActivateLetters();
    PipInstallLetters();
    CondaCreateLetters();
    Absent(VenvCommand, "pixi.toml", 'i');
    Absent(ActivateCommand, "pixi.toml", 'm');
    Absent(PipInstallCommand, "pixi.toml", 'o');
    Absent(CondaCreateCommand, "pixi.toml", 'p');
  }

  lemma PyprojectTomlLines()
    ensures !Contains(VenvCommand, "pyproject.toml") && !Contains(ActivateCommand, "pyproject.toml")
    ensures !Contains(PipInstallCommand, "pyproject.toml") && !Contains(CondaCreateCommand, "pyproject.toml")
  {
    VenvLetters();
    ActivateLetters();
    PipInstallLetters();
    CondaCreateLetters();
    Absent(VenvCommand, "pyproject.toml", 'r');
    Absent(ActivateCommand, "pyproject.toml", 'm');
    Absent(PipInstallCommand, "pyproject.toml", 'o');
    Absent(CondaCreateCommand, "pyproject.toml", 'p');
  }

  lemma RequirementsTxtLines()
    ensures !Contains(VenvCommand, "requirements.txt") && !Contains(ActivateCommand, "requirements.txt")
    ensures Contains(PipInstallCommand, "requirements.txt") && !Contains(CondaCreateCommand, "requirements.txt")
  {
    VenvLetters();
    ActivateLetters();
    CondaCreateLetters();
    Absent(VenvCommand, "requirements.txt", 'r');
    Absent(ActivateCommand, "requirements.txt", 'm');
    ContainsEnd("  pip install -r ", "requirements.txt");
    Absent(CondaCreateCommand, "requirements.txt", 'q');
  }

  /** The printed commands that name a file with a dot, per manager. */
  function DottedLines(manager: string): seq<string> {
    if manager == "pip" then [VenvCommand, ActivateCommand, PipInstallCommand]
    else if manager == "conda" then [CondaCreateCommand]
    else []
  }

  /** Every other printed line lacks a dot when the slug does. */
  lemma UndottedLines(slug: string, manager: string)
    requires '.' !in slug
    ensures forall line | line in NextSteps(slug, manager) :: line in DottedLines(manager) || '.' !in line
  {
  }

  lemma DottedLinesLack(manager: string, name: string)
    requires !Contains(VenvCommand, name) && !Contains(ActivateCommand, name)
    requires manager == "pip" ==> !Contains(PipInstallCommand, name)
    requires manager == "conda" ==> !Contains(CondaCreateCommand, name)
    ensures forall line | line in DottedLines(manager) :: !Contains(line, name)
  {
  }

  /** A name with a dot that no dotted command line contains is not printed. */
  lemma NotMentioned(slug: string, manager: string, name: string)
    requires '.' !in slug && '.' in name
    requires !Contains(VenvCommand, name) && !Contains(ActivateCommand, name)
    requires manager == "pip" ==> !Contains(PipInstallCommand, name)
    requires manager == "conda" ==> !Contains(CondaCreateCommand, name)
    ensures !Mentions(NextSteps(slug, manager), name)
  {
    DottedLinesLack(manager, name);
    UndottedLines(slug, manager);
    forall line | line in NextSteps(slug, manager)
      ensures !Contains(line, name)
    {
      if '.' !in line {
        Absent(line, name, '.');
      }
    }
  }

  lemma EnvironmentYmlMentioned(slug: string, manager: string)
    requires '.' !in slug
    ensures Mentions(NextSteps(slug, manager), "environment.yml") <==> manager == "conda"
  {
    EnvironmentYmlLines();
    if manager == "conda" {
      assert CondaCreateCommand in NextSteps(slug, manager);
    } else {
      NotMentioned(slug, manager, "environment.yml");
    }
  }

  lemma RequirementsTxtMentioned(slug: string, manager: string)
    requires '.' !in slug
    ensures Mentions(NextSteps(slug, manager), "requirements.txt") <==> manager == "pip"
  {
    RequirementsTxtLines();
    if manager == "pip" {
      assert PipInstallCommand in NextSteps(slug, manager);
    } else {
      NotMentioned(slug, manager, "requirements.txt");
    }
  }

  /** The printout names `requirements.txt` for pip and `environment.yml`
      for conda, and no manifest otherwise, provided the slug has no dot. */
  lemma MentionedManifests(slug: string, manager: string, name: string)
    requires '.' !in slug && name in ManifestNames
    ensures Mentions(NextSteps(slug, manager), name) <==>
      (manager == "pip" && name == "requirements.txt") || (manager == "conda" && name == "environment.yml")
  {
    if name == "environment.yml" {
      EnvironmentYmlMentioned(slug, manager);
    } else if name == "pixi.toml" {
      PixiTomlLines();
      NotMentioned(slug, manager, name);
    } else if name == "pyproject.toml" {
      PyprojectTomlLines();
      NotMentioned(slug, manager, name);
    } else {
      assert name == "requirements.txt";
      RequirementsTxtMentioned(slug, manager);
    }
  }
}
