/** The part of Python's `fnmatch.fnmatch` the hooks rely on, with POSIX
    (case-sensitive) comparison: `*` matches any run of characters, the empty
    run included, `?` matches one character, every other character matches
    itself. */
module Glob {

  /** `name` matches the shell-style `pattern`. */
  predicate Match(pattern: string, name: string)
    decreases |pattern|, |name|
  {
    if |pattern| == 0 then
      |name| == 0
    else if pattern[0] == '*' then
      Match(pattern[1..], name) || (|name| > 0 && Match(pattern, name[1..]))
    else
      |name| > 0 && (pattern[0] == '?' || pattern[0] == name[0]) && Match(pattern[1..], name[1..])
  }

  /** A pattern fragment without wildcard or bracket characters. */
  predicate Literal(s: string) {
    forall i | 0 <= i < |s| :: s[i] != '*' && s[i] != '?' && s[i] != '['
  }

  predicate EndsWith(name: string, suffix: string) {
    |suffix| <= |name| && name[|name| - |suffix|..] == suffix
  }

  /** A literal pattern matches exactly itself. */
  lemma {:induction false} LiteralMatchesItself(lit: string, name: string)
    requires Literal(lit)
    ensures Match(lit, name) <==> name == lit
    decreases |lit|
  {
    if |lit| > 0 && |name| > 0 {
      assert Literal(lit[1..]) by {
        forall i | 0 <= i < |lit[1..]|
          ensures lit[1..][i] != '*' && lit[1..][i] != '?' && lit[1..][i] != '['
        {
          assert lit[1..][i] == lit[i + 1];
        }
      }
      LiteralMatchesItself(lit[1..], name[1..]);
      if name[0] == lit[0] && name[1..] == lit[1..] {
        assert name == [name[0]] + name[1..];
        assert lit == [lit[0]] + lit[1..];
      }
    }
  }

  lemma EndsWithUnfold(name: string, suffix: string)
    requires |name| > 0
    ensures EndsWith(name, suffix) <==> name == suffix || EndsWith(name[1..], suffix)
  {
    if |suffix| < |name| {
      assert name[1..][|name| - 1 - |suffix|..] == name[|name| - |suffix|..];
    }
  }

  /** `*` followed by a literal suffix is a suffix test: in particular the
      star may match nothing, so a name that IS the suffix matches. */
  lemma {:induction false} StarLiteral(lit: string, name: string)
    requires Literal(lit)
    ensures Match(['*'] + lit, name) <==> EndsWith(name, lit)
    decreases |name|
  {
    var pattern := ['*'] + lit;
    assert pattern[0] == '*' && pattern[1..] == lit;
    LiteralMatchesItself(lit, name);
    if |name| > 0 {
      StarLiteral(lit, name[1..]);
      EndsWithUnfold(name, lit);
    }
  }

  /** The star may match nothing: a name that is just the literal suffix
      matches, so `.r` matches `*.r`. */
  lemma BareSuffixMatches(lit: string)
    requires Literal(lit)
    ensures Match(['*'] + lit, lit)
  {
    StarLiteral(lit, lit);
    assert lit[|lit| - |lit|..] == lit;
  }

  /** The form of every pattern the post-generation hook uses. */
  lemma StarPattern(pattern: string, name: string)
    requires |pattern| > 0 && pattern[0] == '*' && Literal(pattern[1..])
    ensures Match(pattern, name) <==> EndsWith(name, pattern[1..])
  {
    assert pattern == ['*'] + pattern[1..];
    StarLiteral(pattern[1..], name);
  }
}
