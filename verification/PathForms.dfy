/** The path rules of the release gate, told as forms of paths: what is inside an allowlist, what is
    high-risk, and what the smoke lane is made of. */
module PathForms {
  import opened Text
  import opened PathRules
  import Sequences

  // ----- the allowlist -----

  /** The path starts with this text. */
  ghost predicate Below(path: string, dir: string) {
    |dir| <= |path| && path[..|dir|] == dir
  }

  /** A path inside a directory or a file name that stands for itself and all below it. */
  ghost predicate Inside(path: string, prefix: string) {
    && prefix != ""
    && (|| (prefix[|prefix| - 1] != '/' && path == prefix)
        || Below(path, if prefix[|prefix| - 1] == '/' then prefix else prefix + "/"))
  }

  lemma PrefixMeans(path: string, dir: string)
    ensures Below(path, dir) <==> StartsWith(path, dir)
  {
  }

  lemma EndsInSlash(s: string)
    ensures EndsWith(s, "/") <==> s != "" && s[|s| - 1] == '/'
  {
    if s != "" {
      assert s[|s| - 1..] == [s[|s| - 1]];
    }
  }

  lemma PrefixAllowsMeans(path: string, prefix: string)
    ensures PrefixAllows(path, prefix) <==> Inside(path, prefix)
  {
    if prefix != "" {
      EndsInSlash(prefix);
      PrefixMeans(path, if prefix[|prefix| - 1] == '/' then prefix else prefix + "/");
    }
  }

  ghost predicate InsideOne(path: string, prefixes: seq<string>) {
    exists i :: 0 <= i < |prefixes| && Inside(path, Strip(prefixes[i]))
  }

  /** A path is allowed exactly when it is inside one of the prefixes, blanks around them aside. */
  lemma PathAllowedMeans(path: string, prefixes: seq<string>)
    ensures PathAllowed(path, prefixes) <==> InsideOne(path, prefixes)
  {
    forall i | 0 <= i < |prefixes| ensures PrefixAllows(path, Strip(prefixes[i])) <==> Inside(path, Strip(prefixes[i])) {
      PrefixAllowsMeans(path, Strip(prefixes[i]));
    }
  }

  // ----- the high-risk surface -----

  lemma {:induction false} GlobStar(rest: string, path: string)
    ensures Glob("*" + rest, path) <==> exists k :: 0 <= k <= |path| && Glob(rest, path[k..])
    decreases |path|
  {
    assert ("*" + rest)[1..] == rest && path[0..] == path;
    if path != "" {
      GlobStar(rest, path[1..]);
      if j :| 0 <= j <= |path[1..]| && Glob(rest, path[1..][j..]) {
        assert path[1..][j..] == path[j + 1..];
      }
      if k :| 0 < k <= |path| && Glob(rest, path[k..]) {
        var j := k - 1;
        assert path[1..][j..] == path[k..];
      }
    }
  }

  /** A pattern with two stars matches the paths that hold its three texts in order, apart. */
  ghost predicate HoldsThree(path: string, a: string, b: string, c: string) {
    exists x, y :: path == a + x + b + y + c
  }

  ghost predicate HoldsTwo(path: string, b: string, c: string) {
    exists y :: path == b + y + c
  }

  lemma OneStarMeans(b: string, c: string, path: string)
    requires Literal(b) && Literal(c)
    ensures Glob(b + "*" + c, path) <==> HoldsTwo(path, b, c)
  {
    GlobOneStar(b, c, path);
    if Glob(b + "*" + c, path) {
      var y := path[|b|..|path| - |c|];
      assert path == b + y + c;
    }
    if y :| path == b + y + c {
      assert path == b + (y + c);
    }
  }

  lemma TwoStarsMean(a: string, b: string, c: string, path: string)
    requires Literal(a) && Literal(b) && Literal(c)
    ensures Glob(a + "*" + (b + "*" + c), path) <==> HoldsThree(path, a, b, c)
  {
    var rest := b + "*" + c;
    Sequences.Assoc(a, "*", rest);
    GlobLiteralHead(a, "*" + rest, path);
    if Glob(a + "*" + rest, path) {
      var tail := path[|a|..];
      GlobStar(rest, tail);
      var k :| 0 <= k <= |tail| && Glob(rest, tail[k..]);
      OneStarMeans(b, c, tail[k..]);
      var y :| tail[k..] == b + y + c;
      ThreeParts(path, a, tail, k, b, y, c);
    }
    if x, y :| path == a + x + b + y + c {
      TwoParts(path, a, x, b, y, c);
      var tail, k := path[|a|..], |x|;
      OneStarMeans(b, c, tail[k..]);
      GlobStar(rest, tail);
    }
  }

  lemma ThreeParts(path: string, a: string, tail: string, k: nat, b: string, y: string, c: string)
    requires a <= path && tail == path[|a|..] && k <= |tail| && tail[k..] == b + y + c
    ensures HoldsThree(path, a, b, c)
  {
    var x := tail[..k];
    assert tail == x + (b + y + c);
    assert path == a + tail;
    assert path == a + x + b + y + c;
  }

  lemma TwoParts(path: string, a: string, x: string, b: string, y: string, c: string)
    requires path == a + x + b + y + c
    ensures a <= path && |x| <= |path| - |a| && path[|a|..][|x|..] == b + y + c
  {
    assert path == a + (x + (b + y + c));
    assert path[|a|..] == x + (b + y + c);
  }

  predicate PlainPattern(p: string) {
    p != "" && Trimmed(p) && p[0] != '/'
  }

  lemma Normalized(p: string)
    requires PlainPattern(p)
    ensures LStripSlash(Strip(p)) == p
  {
    StripTrimmed(p);
  }

  lemma TreeMatches(path: string, dir: string, pattern: string)
    requires pattern == dir + "/**" && PlainPattern(pattern)
    ensures PathMatchesPattern(path, pattern) <==> StartsWith(path, dir + "/")
  {
    Normalized(pattern);
    assert pattern[|dir|..] == "/**" && pattern[..|pattern| - 2] == dir + "/";
  }

  lemma FileMatches(path: string, name: string)
    requires PlainPattern(name) && Literal(name) && name[|name| - 1] != '/'
    ensures PathMatchesPattern(path, name) <==> path == name || StartsWith(path, name + "/")
  {
    Normalized(name);
    EndsInSlash(name);
    if EndsWith(name, "/**") {
      assert name[|name| - 3..][1] == name[|name| - 2];
      assert Special(name[|name| - 2]);
    }
  }

  lemma StarMatches(path: string, pattern: string)
    requires PlainPattern(pattern) && !Special(pattern[|pattern| - 1]) && pattern[|pattern| - 1] != '/'
    requires exists i :: 0 <= i < |pattern| && Special(pattern[i])
    ensures PathMatchesPattern(path, pattern) <==> Glob(pattern, path)
  {
    Normalized(pattern);
    EndsInSlash(pattern);
    if EndsWith(pattern, "/**") {
      assert pattern[|pattern| - 3..][2] == pattern[|pattern| - 1];
    }
  }

  lemma OneStarMatches(path: string, a: string, b: string, pattern: string)
    requires pattern == a + "*" + b && Literal(a) && Literal(b) && PlainPattern(pattern) && b != "" && b[|b| - 1] != '/'
    ensures PathMatchesPattern(path, pattern) <==> HoldsTwo(path, a, b)
  {
    assert pattern[|a|] == '*' && pattern[|pattern| - 1] == b[|b| - 1];
    assert Special(pattern[|a|]);
    StarMatches(path, pattern);
    OneStarMeans(a, b, path);
  }

  lemma TwoStarsMatch(path: string, a: string, b: string, c: string, pattern: string)
    requires pattern == a + "*" + (b + "*" + c) && Literal(a) && Literal(b) && Literal(c)
    requires PlainPattern(pattern) && c != "" && c[|c| - 1] != '/'
    ensures PathMatchesPattern(path, pattern) <==> HoldsThree(path, a, b, c)
  {
    assert pattern[|a|] == '*' && pattern[|pattern| - 1] == c[|c| - 1];
    assert Special(pattern[|a|]);
    StarMatches(path, pattern);
    TwoStarsMean(a, b, c, path);
  }

  /** The forms of high-risk paths. */
  ghost predicate HighRiskForm(path: string, k: nat) {
    match k
    case 0 => StartsWith(path, ".github/")
    case 1 => path == "AGENTS.md" || StartsWith(path, "AGENTS.md/")
    case 2 => path == "CLAUDE.md" || StartsWith(path, "CLAUDE.md/")
    case 3 => StartsWith(path, ".claude/")
    case 4 => HoldsTwo(path, "ao_kernel/ao_release_gate", ".py")
    case 5 => HoldsTwo(path, "scripts/ao_release_gate", ".py")
    case 6 => HoldsTwo(path, "scripts/local_gpp_gate", ".py")
    case 7 => HoldsThree(path, "ao_kernel/defaults/schemas/", "gate", ".json")
    case 8 => StartsWith(path, "ao_kernel/defaults/policies/")
    case 9 => StartsWith(path, "deploy/")
    case _ => false
  }

  lemma PatternIsPlain(k: nat)
    requires k < 10
    ensures PlainPattern(HighRiskPattern(k))
  {
    HighRiskPatternTrimmed(k);
    HighRiskPatternStart(k);
  }

  lemma GithubForm(path: string)
    ensures PathMatchesPattern(path, HighRiskPattern(0)) <==> HighRiskForm(path, 0)
  {
    PatternIsPlain(0);
    TreeMatches(path, ".github", HighRiskPattern(0));
  }

  lemma AgentsForm(path: string)
    ensures PathMatchesPattern(path, HighRiskPattern(1)) <==> HighRiskForm(path, 1)
  {
    PatternIsPlain(1);
    FileMatches(path, HighRiskPattern(1));
  }

  lemma ClaudeFileForm(path: string)
    ensures PathMatchesPattern(path, HighRiskPattern(2)) <==> HighRiskForm(path, 2)
  {
    PatternIsPlain(2);
    FileMatches(path, HighRiskPattern(2));
  }

  lemma ClaudeTreeForm(path: string)
    ensures PathMatchesPattern(path, HighRiskPattern(3)) <==> HighRiskForm(path, 3)
  {
    PatternIsPlain(3);
    TreeMatches(path, ".claude", HighRiskPattern(3));
  }

  lemma GateModuleForm(path: string)
    ensures PathMatchesPattern(path, HighRiskPattern(4)) <==> HighRiskForm(path, 4)
  {
    PatternIsPlain(4);
    OneStarMatches(path, "ao_kernel/ao_release_gate", ".py", HighRiskPattern(4));
  }

  lemma GateScriptForm(path: string)
    ensures PathMatchesPattern(path, HighRiskPattern(5)) <==> HighRiskForm(path, 5)
  {
    PatternIsPlain(5);
    OneStarMatches(path, "scripts/ao_release_gate", ".py", HighRiskPattern(5));
  }

  lemma LocalGateForm(path: string)
    ensures PathMatchesPattern(path, HighRiskPattern(6)) <==> HighRiskForm(path, 6)
  {
    PatternIsPlain(6);
    OneStarMatches(path, "scripts/local_gpp_gate", ".py", HighRiskPattern(6));
  }

  lemma PoliciesForm(path: string)
    ensures PathMatchesPattern(path, HighRiskPattern(8)) <==> HighRiskForm(path, 8)
  {
    PatternIsPlain(8);
    TreeMatches(path, "ao_kernel/defaults/policies", HighRiskPattern(8));
  }

  lemma DeployForm(path: string)
    ensures PathMatchesPattern(path, HighRiskPattern(9)) <==> HighRiskForm(path, 9)
  {
    PatternIsPlain(9);
    TreeMatches(path, "deploy", HighRiskPattern(9));
  }

  lemma SchemaForm(path: string)
    ensures PathMatchesPattern(path, HighRiskPattern(7)) <==> HighRiskForm(path, 7)
  {
    PatternIsPlain(7);
    TwoStarsMatch(path, "ao_kernel/defaults/schemas/", "gate", ".json", HighRiskPattern(7));
  }

  /** The high-risk surface is exactly the paths of these ten forms. */
  lemma HighRiskMeans(path: string)
    ensures IsHighRisk(path) <==> exists k: nat :: k < 10 && HighRiskForm(path, k)
  {
    forall k: nat | k < 10 ensures PathMatchesPattern(path, HighRiskPattern(k)) <==> HighRiskForm(path, k) {
      FormIs(path, k);
    }
  }

  lemma FormIs(path: string, k: nat)
    requires k < 10
    ensures PathMatchesPattern(path, HighRiskPattern(k)) <==> HighRiskForm(path, k)
  {
    match k
    case 0 => GithubForm(path);
    case 1 => AgentsForm(path);
    case 2 => ClaudeFileForm(path);
    case 3 => ClaudeTreeForm(path);
    case 4 => GateModuleForm(path);
    case 5 => GateScriptForm(path);
    case 6 => LocalGateForm(path);
    case 7 => SchemaForm(path);
    case 8 => PoliciesForm(path);
    case _ => DeployForm(path);
  }

  // ----- lists of changed paths -----

  ghost predicate TouchesHighRisk(changed: seq<string>) {
    exists p, k :: p in changed && HighRiskForm(p, k)
  }

  /** The high-risk ones of the changed paths, as often as they were changed. */
  ghost predicate AreHighRisk(risky: seq<string>, changed: seq<string>) {
    && (forall p, k | p in changed && HighRiskForm(p, k) :: multiset(risky)[p] == multiset(changed)[p])
    && (forall p | p in risky :: p in changed && exists k :: HighRiskForm(p, k))
  }

  lemma RiskyCounts(changed: seq<string>, risky: seq<string>)
    requires risky == HighRiskPaths(changed)
    ensures forall p :: multiset(risky)[p] == if IsHighRisk(p) then multiset(changed)[p] else 0
  {
    HighRiskPathsIsFilter(changed, []);
    assert changed + [] == changed;
  }

  lemma RiskyIsListed(changed: seq<string>, risky: seq<string>, p: string)
    requires multiset(risky)[p] == if IsHighRisk(p) then multiset(changed)[p] else 0
    ensures p in risky ==> p in changed && exists k :: HighRiskForm(p, k)
    ensures (exists k :: HighRiskForm(p, k)) ==> multiset(risky)[p] == multiset(changed)[p]
  {
    HighRiskMeans(p);
    assert p in risky ==> multiset(risky)[p] > 0;
    assert multiset(changed)[p] > 0 ==> p in changed;
  }

  lemma HighRiskAre(changed: seq<string>, risky: seq<string>)
    requires risky == HighRiskPaths(changed)
    ensures AreHighRisk(risky, changed)
  {
    RiskyCounts(changed, risky);
    forall p: string
      ensures p in risky ==> p in changed && exists k :: HighRiskForm(p, k)
      ensures (exists k :: HighRiskForm(p, k)) ==> multiset(risky)[p] == multiset(changed)[p]
    {
      RiskyIsListed(changed, risky, p);
    }
  }

  lemma HighRiskIff(changed: seq<string>)
    ensures HighRiskPaths(changed) != [] <==> TouchesHighRisk(changed)
  {
    var risky := HighRiskPaths(changed);
    HighRiskAre(changed, risky);
    if risky != [] {
      assert risky[0] in risky;
    }
    if p, k :| p in changed && HighRiskForm(p, k) {
      assert multiset(changed)[p] > 0;
      assert p in multiset(risky);
    }
  }

  // ----- the smoke lane -----

  predicate NoSlash(s: string) {
    forall i | 0 <= i < |s| :: s[i] != '/'
  }

  lemma {:induction false} SplitPlain(s: string, part: string)
    requires NoSlash(s)
    ensures SplitSlash(s, part) == [part + s]
    decreases |s|
  {
    if s == "" {
      Sequences.SumNone(part);
    } else {
      SplitPlain(s[1..], part + [s[0]]);
      assert part + [s[0]] + s[1..] == part + s;
    }
  }

  lemma {:induction false} SplitOne(s: string, rest: string, part: string)
    requires NoSlash(s)
    ensures SplitSlash(s + "/" + rest, part) == [part + s] + SplitSlash(rest, "")
    decreases |s|
  {
    if s == "" {
      assert s + "/" + rest == "/" + rest && ("/" + rest)[1..] == rest;
      Sequences.SumNone(part);
    } else {
      assert (s + "/" + rest)[1..] == s[1..] + "/" + rest && (s + "/" + rest)[0] == s[0];
      SplitOne(s[1..], rest, part + [s[0]]);
      assert part + [s[0]] + s[1..] == part + s;
    }
  }

  /** The parts of a path three directories deep. */
  lemma SplitFour(a: string, b: string, c: string, name: string)
    requires NoSlash(a) && NoSlash(b) && NoSlash(c) && NoSlash(name)
    ensures SplitSlash(a + "/" + (b + "/" + (c + "/" + name)), "") == [a, b, c, name]
  {
    SplitOne(a, b + "/" + (c + "/" + name), "");
    SplitOne(b, c + "/" + name, "");
    SplitOne(c, name, "");
    SplitPlain(name, "");
    Sequences.SumNone(a);
    Sequences.SumNone(b);
    Sequences.SumNone(c);
    Sequences.SumNone(name);
  }

  /** A markdown file name. */
  predicate MarkdownName(name: string) {
    EndsWith(name, ".md") && forall i | 0 <= i < |name| :: name[i] != '/' && name[i] != '\\'
  }

  lemma SmokeText(name: string)
    ensures "docs/evidence/ao-ma-10l-autonomous-smoke/" + name
         == "docs" + "/" + ("evidence" + "/" + ("ao-ma-10l-autonomous-smoke" + "/" + name))
  {
    var a, b, c := "docs", "evidence", "ao-ma-10l-autonomous-smoke";
    assert "docs/evidence/ao-ma-10l-autonomous-smoke/" == a + "/" + b + "/" + c + "/";
    SixTexts(a, b, c, "/", name);
  }

  lemma SixTexts(a: string, b: string, c: string, s: string, name: string)
    ensures a + s + b + s + c + s + name == a + s + (b + s + (c + s + name))
  {
  }

  lemma SmokeNameIsSmoke(name: string)
    requires MarkdownName(name)
    ensures IsSmokePath("docs/evidence/ao-ma-10l-autonomous-smoke/" + name)
  {
    var path := "docs/evidence/ao-ma-10l-autonomous-smoke/" + name;
    SmokeText(name);
    SplitFour("docs", "evidence", "ao-ma-10l-autonomous-smoke", name);
    MarkdownIsNoDot(name);
    assert path[|SMOKE_PREFIX|..] == name;
    NoBackslash(name);
  }

  lemma MarkdownIsNoDot(name: string)
    requires EndsWith(name, ".md")
    ensures name != "" && name != "." && name != ".."
  {
  }

  lemma NoBackslash(name: string)
    requires '\\' !in name
    ensures '\\' !in "docs/evidence/ao-ma-10l-autonomous-smoke/" + name
  {
    assert forall i | 0 <= i < |SMOKE_PREFIX| :: SMOKE_PREFIX[i] != '\\';
  }

  ghost predicate SmokeFile(path: string) {
    exists name :: path == "docs/evidence/ao-ma-10l-autonomous-smoke/" + name && MarkdownName(name)
  }

  /** The smoke lane is exactly the markdown files directly in its directory. */
  lemma SmokePathMeans(path: string)
    ensures IsSmokePath(path) <==> SmokeFile(path)
  {
    if IsSmokePath(path) {
      var name := path[|SMOKE_PREFIX|..];
      assert path == SMOKE_PREFIX + name;
      forall i | 0 <= i < |name| ensures name[i] != '/' && name[i] != '\\' {
        assert name[i] == path[|SMOKE_PREFIX| + i];
      }
    }
    if name :| path == "docs/evidence/ao-ma-10l-autonomous-smoke/" + name && MarkdownName(name) {
      SmokeNameIsSmoke(name);
    }
  }
}
