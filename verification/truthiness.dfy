/** `is_truthy`, the hooks' coercion of a y/n/yes/no/true/false option to a
    boolean, and the way a context value reaches the hooks as text. */
module Truthiness {

  /** An option as supplied in the context: a native boolean or a string. */
  datatype FlagValue = Bool(b: bool) | Text(s: string)

  /** `str.lower` on one character. Only ASCII letters are folded: no other
      character lowercases to one of the letters of the accepted words. */
  function LowerChar(c: char): char {
    if 'A' <= c <= 'Z' then (c as int + 32) as char else c
  }

  /** `str.lower` restricted to ASCII: each capital becomes its own
      lower-case letter, nothing else changes, and no capital is left. */
  function Lower(s: string): (r: string)
    ensures |r| == |s|
    ensures forall i | 0 <= i < |s| :: 'A' <= s[i] <= 'Z' ==> r[i] as int - s[i] as int == 'a' as int - 'A' as int
    ensures forall i | 0 <= i < |s| :: !('A' <= s[i] <= 'Z') ==> r[i] == s[i]
    ensures forall i | 0 <= i < |r| :: !('A' <= r[i] <= 'Z')
  {
    seq(|s|, i requires 0 <= i < |s| => LowerChar(s[i]))
  }

  /** The lower-case spellings the hooks accept as true. */
  const TruthyWords: set<string> := {"y", "yes", "true", "1"}

  /** `is_truthy`: a boolean passes through; any other value is true exactly
      when its lower-case text is one of the accepted words. */
  function IsTruthy(v: FlagValue): bool {
    match v
    case Bool(b) => b
    case Text(s) => Lower(s) in TruthyWords
  }

  /** How a value is printed into the hook source by the templating step:
      Python's `str` of a boolean is `True` or `False`. */
  function Render(v: FlagValue): string {
    match v
    case Bool(b) => if b then "True" else "False"
    case Text(s) => s
  }

  /** `s` spells the lower-case ASCII `word` with any mix of letter cases. */
  predicate SpelledAs(s: string, word: string) {
    |s| == |word| &&
    forall i | 0 <= i < |s| :: s[i] == word[i] || ('a' <= word[i] <= 'z' && s[i] as int == word[i] as int - 32)
  }

  lemma LowerIsSpelling(s: string, word: string)
    requires forall i | 0 <= i < |word| :: !('A' <= word[i] <= 'Z')
    ensures Lower(s) == word <==> SpelledAs(s, word)
  {
    if SpelledAs(s, word) {
      assert Lower(s) == word;
    }
  }

  /** Truthiness without `lower`: a string is true exactly when it spells one
      of y, yes, true or 1 in any letter case. */
  lemma TruthyIffSpelling(s: string)
    ensures IsTruthy(Text(s)) <==>
      SpelledAs(s, "y") || SpelledAs(s, "yes") || SpelledAs(s, "true") || SpelledAs(s, "1")
  {
    LowerIsSpelling(s, "y");
    LowerIsSpelling(s, "yes");
    LowerIsSpelling(s, "true");
    LowerIsSpelling(s, "1");
  }

  /** Passing a value through its printed form does not change its truth:
      the hooks, which only ever see printed text, read every flag as the
      context meant it. */
  lemma RenderKeepsTruth(v: FlagValue)
    ensures IsTruthy(Text(Render(v))) == IsTruthy(v)
  {
    match v
    case Bool(b) =>
      if b {
        assert Lower("True") == "true";
      } else {
        assert Lower("False") == "false";
      }
    case Text(_) =>
  }

  /** Spellings `is_truthy` accepts. */
  lemma TruthyAccepted()
    ensures IsTruthy(Text("YES")) && IsTruthy(Text("True")) && IsTruthy(Text("Y")) && IsTruthy(Text("1"))
  {
    TruthyIffSpelling("YES");
    TruthyIffSpelling("True");
    TruthyIffSpelling("Y");
    TruthyIffSpelling("1");
    assert SpelledAs("YES", "yes") && SpelledAs("True", "true") && SpelledAs("Y", "y") && SpelledAs("1", "1");
  }

  /** Spellings `is_truthy` rejects, including a padded "yes" and "on". */
  lemma TruthyRejected()
    ensures !IsTruthy(Text("n")) && !IsTruthy(Text("no")) && !IsTruthy(Text("")) && !IsTruthy(Text("0"))
    ensures !IsTruthy(Text("yes ")) && !IsTruthy(Text("on"))
  {
    assert Lower("n") == "n";
    assert Lower("no") == "no";
    assert Lower("") == "";
    assert Lower("0") == "0";
    assert Lower("yes ") == "yes ";
    assert Lower("on") == "on";
  }
}
