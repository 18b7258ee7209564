/** Path rules of the release gate: the work-package allowlist, the high-risk patterns and the
    autonomous smoke lane. */
module PathRules {
  import Sequences
  import opened Text

  /** Whether `path` is inside one of the allowed prefixes. */
  predicate PathAllowed(path: string, prefixes: seq<string>) {
    exists i :: 0 <= i < |prefixes| && PrefixAllows(path, Strip(prefixes[i]))
  }

  predicate PrefixAllows(path: string, prefix: string) {
    && prefix != ""
    && if EndsWith(prefix, "/") then StartsWith(path, prefix)
       else path == prefix || StartsWith(path, prefix + "/")
  }

  // ----- glob matching -----

  predicate Special(c: char) {
    c == '*' || c == '?' || c == '['
  }

  predicate Literal(s: string) {
    forall i | 0 <= i < |s| :: !Special(s[i])
  }

  /** `fnmatch`: a star stands for any text, a question mark for any one character. */
  predicate Glob(pattern: string, path: string)
    decreases |pattern| + |path|
  {
    if pattern == "" then path == ""
    else if pattern[0] == '*' then Glob(pattern[1..], path) || (path != "" && Glob(pattern, path[1..]))
    else path != "" && (pattern[0] == '?' || pattern[0] == path[0]) && Glob(pattern[1..], path[1..])
  }

  lemma {:induction false} GlobLiteralHead(a: string, rest: string, path: string)
    requires Literal(a)
    ensures Glob(a + rest, path) <==> a <= path && Glob(rest, path[|a|..])
  {
    if a == "" {
      assert a + rest == rest;
    } else {
      assert (a + rest)[1..] == a[1..] + rest;
      if path != "" && path[0] == a[0] {
        GlobLiteralHead(a[1..], rest, path[1..]);
        assert a <= path <==> a[1..] <= path[1..];
        if a <= path {
          assert path[|a|..] == path[1..][|a[1..]|..];
        }
      }
    }
  }

  lemma {:induction false} GlobLiteral(b: string, path: string)
    requires Literal(b)
    ensures Glob(b, path) <==> path == b
  {
    assert b + "" == b;
    GlobLiteralHead(b, "", path);
    if b <= path && path[|b|..] == "" {
      assert path == path[..|b|] + path[|b|..];
    }
  }

  lemma {:induction false} GlobStarTail(b: string, path: string)
    requires Literal(b)
    ensures Glob("*" + b, path) <==> EndsWith(path, b)
    decreases |path|
  {
    assert ("*" + b)[1..] == b;
    GlobLiteral(b, path);
    if path != "" {
      GlobStarTail(b, path[1..]);
      if |b| < |path| {
        assert path[|path| - |b|..] == path[1..][|path[1..]| - |b|..];
      }
    }
  }

  /** What ends a text that has a prefix ends what follows the prefix, if there is room for both. */
  lemma EndsAfter(path: string, n: nat, b: string)
    requires n <= |path|
    ensures EndsWith(path[n..], b) <==> n + |b| <= |path| && EndsWith(path, b)
  {
    if n + |b| <= |path| {
      assert path[n..][|path| - n - |b|..] == path[|path| - |b|..];
    }
  }

  /** A pattern with one star matches exactly the paths that start with what precedes the star,
      end with what follows it, and are long enough to hold both. */
  lemma GlobOneStar(a: string, b: string, path: string)
    requires Literal(a) && Literal(b)
    ensures Glob(a + "*" + b, path) <==> |a| + |b| <= |path| && StartsWith(path, a) && EndsWith(path, b)
  {
    Sequences.Assoc(a, "*", b);
    GlobLiteralHead(a, "*" + b, path);
    if a <= path {
      GlobStarTail(b, path[|a|..]);
      EndsAfter(path, |a|, b);
    }
  }

  // ----- high-risk paths -----

  function LStripSlash(s: string): string {
    if s != "" && s[0] == '/' then LStripSlash(s[1..]) else s
  }

  predicate PathMatchesPattern(path: string, pattern: string) {
    var normalized := LStripSlash(Strip(pattern));
    if normalized == "" then false
    else if EndsWith(normalized, "/**") then StartsWith(path, normalized[..|normalized| - 2])
    else if EndsWith(normalized, "/") then StartsWith(path, normalized)
    else if exists i :: 0 <= i < |normalized| && Special(normalized[i]) then Glob(normalized, path)
    else path == normalized || StartsWith(path, normalized + "/")
  }

  /** The high-risk surface, pattern by pattern. */
  function HighRiskPattern(k: nat): string
    requires k < 10
  {
    match k
    case 0 => ".github/**"
    case 1 => "AGENTS.md"
    case 2 => "CLAUDE.md"
    case 3 => ".claude/**"
    case 4 => "ao_kernel/ao_release_gate*.py"
    case 5 => "scripts/ao_release_gate*.py"
    case 6 => "scripts/local_gpp_gate*.py"
    case 7 => "ao_kernel/defaults/schemas/*gate*.json"
    case 8 => "ao_kernel/defaults/policies/**"
    case _ => "deploy/**"
  }

  predicate IsHighRisk(path: string) {
    exists k: nat :: k < 10 && PathMatchesPattern(path, HighRiskPattern(k))
  }

  function Filter(paths: seq<string>, keep: string -> bool): (r: seq<string>)
    ensures |r| <= |paths|
  {
    if paths == [] then []
    else (if keep(paths[0]) then [paths[0]] else []) + Filter(paths[1..], keep)
  }

  /** The changed paths that require a non-author human approval, in order. */
  function HighRiskPaths(paths: seq<string>): seq<string> {
    Filter(paths, IsHighRisk)
  }

  lemma {:induction false} FilterAppend(a: seq<string>, b: seq<string>, keep: string -> bool)
    ensures Filter(a + b, keep) == Filter(a, keep) + Filter(b, keep)
  {
    if a == [] {
      Sequences.SumNone(b);
    } else {
      var first, rest := if keep(a[0]) then [a[0]] else [], a[1..];
      Sequences.SumTail(a, b);
      FilterAppend(rest, b, keep);
      Sequences.Assoc(first, Filter(rest, keep), Filter(b, keep));
    }
  }

  lemma {:induction false} FilterMeans(paths: seq<string>, keep: string -> bool)
    ensures Filter(paths, keep) == [] <==> forall i | 0 <= i < |paths| :: !keep(paths[i])
    ensures forall p :: multiset(Filter(paths, keep))[p] == if keep(p) then multiset(paths)[p] else 0
  {
    if paths != [] {
      FilterMeans(paths[1..], keep);
      assert paths == [paths[0]] + paths[1..];
    }
  }

  /** The filter keeps order: it distributes over concatenation. And it keeps every occurrence of
      a high-risk path and no other. */
  lemma HighRiskPathsIsFilter(a: seq<string>, b: seq<string>)
    ensures HighRiskPaths(a + b) == HighRiskPaths(a) + HighRiskPaths(b)
    ensures forall p :: multiset(HighRiskPaths(a))[p] == if IsHighRisk(p) then multiset(a)[p] else 0
  {
    FilterAppend(a, b, IsHighRisk);
    FilterMeans(a, IsHighRisk);
  }

  // ----- the smoke lane -----

  const SMOKE_PREFIX := "docs/evidence/ao-ma-10l-autonomous-smoke/"

  /** `path.split("/")`; `part` is the component being read. */
  function SplitSlash(path: string, part: string := ""): seq<string>
    decreases |path|
  {
    if path == "" then [part]
    else if path[0] == '/' then [part] + SplitSlash(path[1..])
    else SplitSlash(path[1..], part + [path[0]])
  }

  predicate IsSmokePath(path: string) {
    && !('\\' in path || StartsWith(path, "/"))
    && (forall i | 0 <= i < |SplitSlash(path)| :: SplitSlash(path)[i] !in ["", ".", ".."])
    && StartsWith(path, SMOKE_PREFIX)
    && var relative := path[|SMOKE_PREFIX|..];
       relative != "" && '/' !in relative && EndsWith(relative, ".md")
  }

  /** A match fixes the first two characters of the path when the pattern starts with two
      literal characters. */
  lemma MatchFixesStart(path: string, pattern: string)
    requires |pattern| >= 2 && Trimmed(pattern) && pattern[0] != '/'
    requires !Special(pattern[0]) && !Special(pattern[1])
    requires PathMatchesPattern(path, pattern)
    ensures |path| >= 2 && path[0] == pattern[0] && path[1] == pattern[1]
  {
    StripTrimmed(pattern);
    if Glob(pattern, path) {
      assert pattern == pattern[..2] + pattern[2..];
      GlobLiteralHead(pattern[..2], pattern[2..], path);
    }
  }

  ghost predicate StartsApart(p: string) {
    && |p| >= 2 && p[0] != '/' && !Special(p[0]) && !Special(p[1])
    && !(p[0] == 'd' && p[1] == 'o')
  }

  /** Every high-risk pattern starts with two literal characters other than those of the smoke lane. */
  lemma HighRiskPatternStart(k: nat)
    requires k < 10
    ensures StartsApart(HighRiskPattern(k))
  {
  }

  lemma HighRiskPatternTrimmed(k: nat)
    requires k < 10
    ensures Trimmed(HighRiskPattern(k))
  {
    var p := HighRiskPattern(k);
    assert p[|p| - 1] in ['*', 'd', 'y', 'n'];
    assert p[0] in ['.', 'A', 'C', 'a', 's', 'd'];
  }

  lemma SmokeStart(path: string)
    requires IsSmokePath(path)
    ensures |path| >= 2 && path[0] == 'd' && path[1] == 'o'
  {
    assert SMOKE_PREFIX[0] == 'd' && SMOKE_PREFIX[1] == 'o';
  }

  /** The smoke lane and the high-risk surface have no path in common. */
  lemma SmokeIsNotHighRisk(path: string)
    requires IsSmokePath(path)
    ensures !IsHighRisk(path)
  {
    SmokeStart(path);
    forall k: nat | k < 10 ensures !PathMatchesPattern(path, HighRiskPattern(k)) {
      HighRiskPatternStart(k);
      HighRiskPatternTrimmed(k);
      StartsDiffer(path, HighRiskPattern(k));
    }
  }

  lemma StartsDiffer(path: string, p: string)
    requires |p| >= 2 && Trimmed(p) && p[0] != '/' && !Special(p[0]) && !Special(p[1])
    requires |path| >= 2 && !(p[0] == path[0] && p[1] == path[1])
    ensures !PathMatchesPattern(path, p)
  {
    if PathMatchesPattern(path, p) {
      MatchFixesStart(path, p);
    }
  }

  lemma SmokeLaneHasNoHighRisk(paths: seq<string>)
    requires forall i | 0 <= i < |paths| :: IsSmokePath(paths[i])
    ensures HighRiskPaths(paths) == []
  {
    forall i | 0 <= i < |paths| ensures !IsHighRisk(paths[i]) {
      SmokeIsNotHighRisk(paths[i]);
    }
    FilterMeans(paths, IsHighRisk);
  }
}
