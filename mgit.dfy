/** The types of main.go and the two per-location helpers: whether a location
    wants a repository (Location.Wants) and the expanded directory of a
    location (Location.DirectoryName). */
module Mgit {

  datatype Option<+T> = None | Some(value: T)

  /** A repository reported by a remote source; `url` is the deduplication key. */
  datatype RemoteRepo = RemoteRepo(name: string, url: string)

  /** A repository already present on disk, identified by its directory. */
  datatype LocalRepo = LocalRepo(directory: string)

  /** A configured target: a directory template and a pattern over repository URLs. */
  datatype Location = Location(directory: string, repository: string)

  // ---------------------------------------------------------------------------
  // Pattern matching

  /** The regular-expression engine, left uninterpreted: whether a pattern
      compiles, and whether a pattern matches the slice s[i..j] of s (matching
      is given the whole of s so that anchors such as `^` may depend on where
      the slice lies). */
  datatype RegexEngine = RegexEngine(
    compiles: string -> bool,
    matchesAt: (string, string, nat, nat) -> bool)

  /** What regexp.MatchString reports: a match flag, or an error for a pattern
      that does not compile. */
  datatype MatchResult = Matched(found: bool) | BadPattern

  predicate MatchesAt(engine: RegexEngine, pattern: string, s: string, i: nat, j: nat)
  {
    engine.matchesAt(pattern, s, i, j)
  }

  /** regexp.MatchString: an unanchored search, true when any slice of `s`
      matches `pattern`. */
  function MatchString(engine: RegexEngine, pattern: string, s: string): MatchResult
  {
    if !engine.compiles(pattern) then BadPattern
    else Matched(exists i: nat, j: nat | i <= j <= |s| :: MatchesAt(engine, pattern, s, i, j))
  }

  /** Location.Wants: a malformed pattern is logged and wants nothing; otherwise
      the location wants the repository when its pattern matches anywhere in
      the repository's URL. */
  function Wants(engine: RegexEngine, l: Location, repo: RemoteRepo): (r: bool)
    ensures !engine.compiles(l.repository) ==> !r
    ensures engine.compiles(l.repository) ==>
      (r <==> exists i: nat, j: nat | i <= j <= |repo.url| :: MatchesAt(engine, l.repository, repo.url, i, j))
  {
    match MatchString(engine, l.repository, repo.url)
    case BadPattern => false
    case Matched(found) => found
  }

  // ---------------------------------------------------------------------------
  // Placeholder expansion in a location's directory

  predicate IsUpper(c: char)
  {
    'A' <= c <= 'Z'
  }

  /** Length of the longest prefix of `s` made of upper-case letters. */
  function UpperRun(s: string): (n: nat)
    ensures n <= |s|
    ensures forall k | 0 <= k < n :: IsUpper(s[k])
    ensures n < |s| ==> !IsUpper(s[n])
  {
    if s != [] && IsUpper(s[0]) then 1 + UpperRun(s[1..]) else 0
  }

  /** Regexp.ReplaceAllStringFunc for the fixed pattern `\$[A-Z]*`: scanning
      from the left, every placeholder (a `$` and the longest run of capitals
      after it) is replaced by `f` applied to the placeholder's text. */
  function ReplacePlaceholders(s: string, f: string -> string): string
    decreases |s|
  {
    if s == [] then []
    else if s[0] == '$' then
      var n := 1 + UpperRun(s[1..]);
      f(s[..n]) + ReplacePlaceholders(s[n..], f)
    else
      [s[0]] + ReplacePlaceholders(s[1..], f)
  }

  /** Location.DirectoryName as written: the replacement callback ignores the
      placeholder it is given and returns the expansion of the WHOLE
      directory template. */
  function DirectoryNameAsWritten(l: Location, expandEnv: string -> string): (r: string)
    ensures '$' !in l.directory ==> r == l.directory
  {
    LiteralUnchanged(l.directory, _ => expandEnv(l.directory));
    ReplacePlaceholders(l.directory, _ => expandEnv(l.directory))
  }

  /** Location.DirectoryName corrected: each placeholder is replaced by its own
      expansion. */
  function DirectoryName(l: Location, expandEnv: string -> string): (r: string)
    ensures '$' !in l.directory ==> r == l.directory
  {
    LiteralUnchanged(l.directory, expandEnv);
    ReplacePlaceholders(l.directory, expandEnv)
  }

  /** Text without a `$` passes through the replacement unchanged. */
  lemma {:induction false} LiteralUnchanged(s: string, f: string -> string)
    ensures '$' !in s ==> ReplacePlaceholders(s, f) == s
    decreases |s|
  {
    if s != [] && '$' !in s {
      assert s[0] != '$';
      assert forall c | c in s[1..] :: c in s;
      LiteralUnchanged(s[1..], f);
      assert [s[0]] + s[1..] == s;
    }
  }

  /** Text without a `$` in front of the rest is copied through, and the rest
      is replaced on its own. */
  lemma {:induction false} LiteralPrefixKept(lit: string, rest: string, f: string -> string)
    requires '$' !in lit
    ensures ReplacePlaceholders(lit + rest, f) == lit + ReplacePlaceholders(rest, f)
  {
    if lit != [] {
      assert (lit + rest)[0] == lit[0] != '$';
      assert (lit + rest)[1..] == lit[1..] + rest;
      assert forall c | c in lit[1..] :: c in lit;
      LiteralPrefixKept(lit[1..], rest, f);
      assert [lit[0]] + lit[1..] == lit;
    } else {
      assert lit + rest == rest;
    }
  }

  /** A placeholder at the front (a `$`, a run of capitals, and then no further
      capital) is replaced by `f` of exactly that placeholder. */
  lemma PlaceholderReplaced(name: string, rest: string, f: string -> string)
    requires forall k | 0 <= k < |name| :: IsUpper(name[k])
    requires rest == [] || !IsUpper(rest[0])
    ensures ReplacePlaceholders("$" + name + rest, f) == f("$" + name) + ReplacePlaceholders(rest, f)
  {
    var s := "$" + name + rest;
    assert s[1..] == name + rest;
    UpperRunOfCapitals(name, rest);
    assert s[..1 + |name|] == "$" + name;
    assert s[1 + |name|..] == rest;
  }

  lemma {:induction false} UpperRunOfCapitals(name: string, rest: string)
    requires forall k | 0 <= k < |name| :: IsUpper(name[k])
    requires rest == [] || !IsUpper(rest[0])
    ensures UpperRun(name + rest) == |name|
  {
    if name != [] {
      assert (name + rest)[1..] == name[1..] + rest;
      UpperRunOfCapitals(name[1..], rest);
    } else {
      assert name + rest == rest;
    }
  }

  /** The corrected DirectoryName on a template with one placeholder: the
      literal text before and after it is kept once, and the placeholder
      becomes its own expansion. */
  lemma DirectoryNameOnePlaceholder(template: string, before: string, name: string, after: string, expandEnv: string -> string)
    requires template == before + "$" + name + after
    requires '$' !in before && '$' !in after
    requires forall k | 0 <= k < |name| :: IsUpper(name[k])
    requires after == [] || !IsUpper(after[0])
    ensures DirectoryName(Location(template, ""), expandEnv) == before + expandEnv("$" + name) + after
  {
    assert template == before + ("$" + name + after);
    LiteralPrefixKept(before, "$" + name + after, expandEnv);
    PlaceholderReplaced(name, after, expandEnv);
    LiteralUnchanged(after, expandEnv);
  }

  /** DirectoryName as written on the same template: the placeholder becomes
      the expansion of the whole template, so the literal text around it is
      repeated. */
  lemma DirectoryNameAsWrittenOnePlaceholder(template: string, before: string, name: string, after: string, expandEnv: string -> string)
    requires template == before + "$" + name + after
    requires '$' !in before && '$' !in after
    requires forall k | 0 <= k < |name| :: IsUpper(name[k])
    requires after == [] || !IsUpper(after[0])
    ensures DirectoryNameAsWritten(Location(template, ""), expandEnv) == before + expandEnv(template) + after
  {
    var f := _ => expandEnv(template);
    assert template == before + ("$" + name + after);
    LiteralPrefixKept(before, "$" + name + after, f);
    PlaceholderReplaced(name, after, f);
    LiteralUnchanged(after, f);
  }

  /** An environment with HOME=/home/u, as os.ExpandEnv sees it on the two
      strings the example below asks about. */
  function HomeEnv(s: string): string
  {
    if s == "$HOME" then "/home/u" else if s == "$HOME/src" then "/home/u/src" else s
  }

  /** With HOME=/home/u, the template "$HOME/src" comes back from DirectoryName
      as written as "/home/u/src/src". */
  // The template is a parameter fixed by the precondition, rather than a
  // literal in the call, so that the verifier does not unfold the
  // replacement on the literal text character by character.
  lemma DirectoryNameDuplicatesSuffix(template: string)
    requires template == "$HOME/src"
    ensures DirectoryNameAsWritten(Location(template, ""), HomeEnv) == "/home/u/src/src"
  {
    HomeTemplatePieces(template);
    DirectoryNameAsWrittenOnePlaceholder(template, [], "HOME", "/src", HomeEnv);
  }

  /** With HOME=/home/u, the corrected DirectoryName gives "/home/u/src" for
      "$HOME/src", the same directory os.ExpandEnv gives. */
  // The template is a parameter for the same reason as above.
  lemma DirectoryNameExpandsOnce(template: string)
    requires template == "$HOME/src"
    ensures DirectoryName(Location(template, ""), HomeEnv) == "/home/u/src"
  {
    HomeTemplatePieces(template);
    DirectoryNameOnePlaceholder(template, [], "HOME", "/src", HomeEnv);
  }

  /** The pieces of the template "$HOME/src" and what HomeEnv makes of them. */
  lemma HomeTemplatePieces(template: string)
    requires template == "$HOME/src"
    ensures template == [] + "$" + "HOME" + "/src"
    ensures '$' !in [] && '$' !in "/src" && !IsUpper("/src"[0])
    ensures forall k | 0 <= k < |"HOME"| :: IsUpper("HOME"[k])
    ensures [] + HomeEnv(template) + "/src" == "/home/u/src/src"
    ensures [] + HomeEnv("$" + "HOME") + "/src" == "/home/u/src"
  {
    assert |template| != |"$HOME"|;
  }
}
