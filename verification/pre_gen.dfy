/** The pre-generation hook: it checks the project slug, advises on the
    e-mail address and refuses R scripts with a manager that cannot install
    R packages. It stops at the first fatal check. */
module PreGen {
  import Truthiness

  predicate IsLowerLetter(c: char) {
    'a' <= c <= 'z'
  }

  predicate IsSlugChar(c: char) {
    IsLowerLetter(c) || '0' <= c <= '9' || c == '_'
  }

  /** The documented slug rule: a lower-case letter followed by lower-case
      letters, digits and underscores. */
  predicate ValidSlug(s: string) {
    |s| > 0 && IsLowerLetter(s[0]) && forall i | 1 <= i < |s| :: IsSlugChar(s[i])
  }

  /** What `re.match(r"^[a-z][a-z0-9_]*$", s)` accepts. Python's `$` also
      matches just before a final newline, so one trailing "\n" gets through:
      character by character, a lower-case letter and then slug characters,
      the last of which may instead be that newline. */
  function SlugPatternMatches(s: string): (b: bool)
    ensures b <==> (|s| > 0 && IsLowerLetter(s[0]) &&
      forall i | 1 <= i < |s| :: IsSlugChar(s[i]) || (i == |s| - 1 && s[i] == '\n'))
  {
    DropLast(s);
    ValidSlug(s) || (|s| > 1 && s[|s| - 1] == '\n' && ValidSlug(s[..|s| - 1]))
  }

  lemma DropLast(s: string)
    ensures |s| > 0 ==> forall i | 0 <= i < |s| - 1 :: s[..|s| - 1][i] == s[i]
  {
  }

  /** The regular-expression scan: one `[a-z]`, the longest run of
      `[a-z0-9_]`, then `$`. */
  method MatchSlug(s: string) returns (matched: bool)
    ensures matched <==> SlugPatternMatches(s)
  {
    if |s| == 0 || !IsLowerLetter(s[0]) {
      return false;
    }
    var i := 1;
    while i < |s| && IsSlugChar(s[i])
      invariant 1 <= i <= |s|
      invariant forall k | 1 <= k < i :: IsSlugChar(s[k])
    {
      i := i + 1;
    }
    matched := i == |s| || (i == |s| - 1 && s[i] == '\n');
    if !matched {
      assert !IsSlugChar(s[i]);
      if i < |s| - 1 {
        assert s[..|s| - 1][i] == s[i];
      }
    } else if i < |s| {
      assert ValidSlug(s[..|s| - 1]);
    }
  }

  /** The pre-generation test of `include_r_scripts`, done on its text with
      the hook's own list of accepted words. */
  predicate RequestsR(includeR: string) {
    Truthiness.Lower(includeR) in {"y", "yes", "true", "1"}
  }

  predicate ManagerWithoutR(manager: string) {
    manager == "pip" || manager == "uv"
  }

  datatype Verdict = Ok | InvalidSlug | IncompatibleEnvironmentForR

  /** The outcome of the hook: its verdict (anything but `Ok` is exit
      status 1) and whether it printed the e-mail warning. */
  datatype Validation = Validation(verdict: Verdict, emailWarning: bool)

  function Validate(slug: string, email: string, includeR: string, manager: string): (r: Validation)
    ensures r.verdict == InvalidSlug <==> !SlugPatternMatches(slug)
    ensures r.verdict == IncompatibleEnvironmentForR <==>
      SlugPatternMatches(slug) && RequestsR(includeR) && ManagerWithoutR(manager)
    ensures r.emailWarning <==> SlugPatternMatches(slug) && |email| > 0 && '@' !in email
  {
    if !SlugPatternMatches(slug) then
      Validation(InvalidSlug, false)
    else
      var warn := email != "" && '@' !in email;
      if RequestsR(includeR) && ManagerWithoutR(manager) then
        Validation(IncompatibleEnvironmentForR, warn)
      else
        Validation(Ok, warn)
  }

  /** A bad slug stops the hook before anything else is looked at: the
      verdict and the silence about the e-mail depend on nothing else. */
  lemma InvalidSlugShortCircuits(slug: string, email: string, email': string,
                                 includeR: string, includeR': string, manager: string, manager': string)
    requires !SlugPatternMatches(slug)
    ensures Validate(slug, email, includeR, manager) == Validate(slug, email', includeR', manager')
    ensures !Validate(slug, email, includeR, manager).emailWarning
  {
  }

  /** The e-mail check never fails validation. */
  lemma EmailNeverFatal(slug: string, email: string, email': string, includeR: string, manager: string)
    ensures Validate(slug, email, includeR, manager).verdict == Validate(slug, email', includeR, manager).verdict
  {
  }

  /** With conda or pixi, a valid slug always passes, whatever the R flag. */
  lemma CondaOrPixiAccepted(slug: string, email: string, includeR: string, manager: string)
    requires SlugPatternMatches(slug) && (manager == "conda" || manager == "pixi")
    ensures Validate(slug, email, includeR, manager).verdict == Ok
  {
  }

  /** A successful validation guarantees the slug shape and the absence of
      the R conflict. */
  lemma OkMeansConsistent(slug: string, email: string, includeR: string, manager: string)
    requires Validate(slug, email, includeR, manager).verdict == Ok
    ensures SlugPatternMatches(slug)
    ensures RequestsR(includeR) ==> !ManagerWithoutR(manager)
  {
  }

  /** The pre-generation test of the R flag agrees with `is_truthy` on every
      string. */
  lemma RequestsRIsTruthy(includeR: string)
    ensures RequestsR(includeR) == Truthiness.IsTruthy(Truthiness.Text(includeR))
  {
  }

  /** "Test-Project" breaks the rule twice (upper case, hyphen). */
  lemma TestProjectRejected()
    ensures Validate("Test-Project", "test@example.com", "False", "pip").verdict == InvalidSlug
    ensures Validate("test_project", "test@example.com", "False", "pip") == Validation(Ok, false)
  {
    assert !IsLowerLetter("Test-Project"[0]);
    assert ValidSlug("test_project");
  }

  /** R scripts with pip or uv are refused; with pixi they are accepted. */
  lemma RWithManagerExamples()
    ensures Validate("test_project", "test@example.com", "True", "pip").verdict == IncompatibleEnvironmentForR
    ensures Validate("test_project", "test@example.com", "True", "uv").verdict == IncompatibleEnvironmentForR
    ensures Validate("test_project", "test@example.com", "True", "pixi").verdict == Ok
  {
    assert ValidSlug("test_project");
    assert Truthiness.Lower("True") == "true";
  }

  /** An empty address gets no warning; one without `@` is only warned about. */
  lemma EmailExamples()
    ensures Validate("test_project", "", "n", "pip") == Validation(Ok, false)
    ensures Validate("test_project", "nobody", "n", "pip") == Validation(Ok, true)
  {
    assert ValidSlug("test_project");
    assert Truthiness.Lower("n") == "n";
    assert "nobody"[0] != '@' && "nobody"[1] != '@' && "nobody"[5] != '@';
  }

  /** The trailing-newline quirk: a slug with one final newline passes the
      check although it breaks the documented rule; two newlines do not. */
  lemma TrailingNewlineAccepted()
    ensures SlugPatternMatches("abc\n") && !ValidSlug("abc\n")
    ensures !SlugPatternMatches("abc\n\n")
  {
    assert "abc\n"[..3] == "abc";
    assert !IsSlugChar("abc\n"[3]);
    assert !IsSlugChar("abc\n\n"[3]);
    assert "abc\n\n"[..4] == "abc\n";
  }
}
