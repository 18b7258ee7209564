/** The digest that binds review evidence to a list of changed paths: a hash of the sorted paths
    joined by newlines. */
module DiffDigest {

  /** Python compares strings by code point, first difference first. */
  predicate Le(a: string, b: string) {
    a == "" || (b != "" && (a[0] < b[0] || (a[0] == b[0] && Le(a[1..], b[1..]))))
  }

  lemma {:induction false} LeTotal(a: string, b: string)
    ensures Le(a, b) || Le(b, a)
    ensures Le(a, b) && Le(b, a) ==> a == b
  {
    if a != "" && b != "" {
      LeTotal(a[1..], b[1..]);
      assert a == [a[0]] + a[1..] && b == [b[0]] + b[1..];
    }
  }

  lemma {:induction false} LeTransitive(a: string, b: string, c: string)
    requires Le(a, b) && Le(b, c)
    ensures Le(a, c)
  {
    if a != "" && a[0] == b[0] == c[0] {
      LeTransitive(a[1..], b[1..], c[1..]);
    }
  }

  ghost predicate Ordered(ss: seq<string>) {
    forall i, j | 0 <= i < j < |ss| :: Le(ss[i], ss[j])
  }

  function Insert(x: string, ss: seq<string>): (r: seq<string>)
    ensures multiset(r) == multiset(ss) + multiset{x} && |r| == |ss| + 1
  {
    if ss == [] then [x]
    else if Le(x, ss[0]) then [x] + ss
    else
      assert ss == [ss[0]] + ss[1..];
      [ss[0]] + Insert(x, ss[1..])
  }

  /** `sorted(ss)`. */
  function Sorted(ss: seq<string>): (r: seq<string>)
    ensures multiset(r) == multiset(ss) && |r| == |ss|
  {
    if ss == [] then []
    else
      assert ss == [ss[0]] + ss[1..];
      Insert(ss[0], Sorted(ss[1..]))
  }

  lemma {:induction false} InsertKeepsOrder(x: string, ss: seq<string>)
    requires Ordered(ss)
    ensures Ordered(Insert(x, ss))
  {
    if ss == [] {
    } else if Le(x, ss[0]) {
      forall j | 0 <= j < |ss| ensures Le(x, ss[j]) {
        if j > 0 {
          LeTransitive(x, ss[0], ss[j]);
        }
      }
    } else {
      LeTotal(x, ss[0]);
      InsertKeepsOrder(x, ss[1..]);
      var rest := Insert(x, ss[1..]);
      forall j | 0 <= j < |rest| ensures Le(ss[0], rest[j]) {
        assert rest[j] in multiset(rest);
        if rest[j] != x {
          assert rest[j] in multiset(ss[1..]);
          var i :| 0 <= i < |ss[1..]| && ss[1..][i] == rest[j];
          assert ss[1 + i] == rest[j];
        }
      }
    }
  }

  lemma {:induction false} SortedIsOrdered(ss: seq<string>)
    ensures Ordered(Sorted(ss))
  {
    if ss != [] {
      SortedIsOrdered(ss[1..]);
      InsertKeepsOrder(ss[0], Sorted(ss[1..]));
    }
  }

  lemma FirstIsLeast(ss: seq<string>, x: string)
    requires Ordered(ss) && x in multiset(ss)
    ensures Le(ss[0], x)
  {
    var i :| 0 <= i < |ss| && ss[i] == x;
    LeTotal(x, x);
  }

  lemma SameFirst(a: seq<string>, b: seq<string>)
    requires Ordered(a) && Ordered(b) && multiset(a) == multiset(b) && a != [] && b != []
    ensures a[0] == b[0]
  {
    assert a[0] in multiset(a) && b[0] in multiset(b);
    FirstIsLeast(a, b[0]);
    FirstIsLeast(b, a[0]);
    LeTotal(a[0], b[0]);
  }

  lemma DropFirst(ss: seq<string>)
    requires ss != []
    ensures multiset(ss[1..]) == multiset(ss) - multiset{ss[0]}
  {
    assert ss == [ss[0]] + ss[1..];
  }

  /** An ordered list is determined by how often each string occurs in it. */
  lemma {:induction false} OrderedIsCanonical(a: seq<string>, b: seq<string>)
    requires Ordered(a) && Ordered(b) && multiset(a) == multiset(b)
    ensures a == b
  {
    assert |a| == |multiset(a)| == |multiset(b)| == |b|;
    if a != [] {
      SameFirst(a, b);
      DropFirst(a);
      DropFirst(b);
      OrderedIsCanonical(a[1..], b[1..]);
      assert a == [a[0]] + a[1..] && b == [b[0]] + b[1..];
    }
  }

  /** Sorting forgets the order of a list and nothing else. */
  lemma SortedIsCanonical(a: seq<string>, b: seq<string>)
    ensures Sorted(a) == Sorted(b) <==> multiset(a) == multiset(b)
  {
    SortedIsOrdered(a);
    SortedIsOrdered(b);
    if multiset(a) == multiset(b) {
      OrderedIsCanonical(Sorted(a), Sorted(b));
    }
  }

  /** `"\n".join(ss)`. */
  function Lines(ss: seq<string>): string {
    if ss == [] then ""
    else if |ss| == 1 then ss[0]
    else ss[0] + "\n" + Lines(ss[1..])
  }

  /** A path that occupies exactly one line. */
  ghost predicate OneLine(s: string) {
    s != "" && '\n' !in s
  }

  lemma LinesHead(ss: seq<string>)
    requires ss != []
    ensures ss[0] <= Lines(ss)
    ensures |Lines(ss)| > |ss[0]| ==> |ss| > 1 && Lines(ss)[|ss[0]|] == '\n' && Lines(ss)[|ss[0]| + 1..] == Lines(ss[1..])
    ensures |ss| > 1 ==> |Lines(ss)| > |ss[0]|
  {
  }

  /** A line of `s` cannot reach past the newline that ends another line from the same start. */
  lemma LineStops(x: string, y: string, s: string)
    requires x <= s && y <= s && OneLine(y)
    requires |s| > |x| ==> s[|x|] == '\n'
    ensures |y| <= |x|
  {
    if |s| > |x| {
      assert s[|x|] == '\n';
    }
  }

  lemma {:induction false} LinesInjective(a: seq<string>, b: seq<string>)
    requires forall i | 0 <= i < |a| :: OneLine(a[i])
    requires forall i | 0 <= i < |b| :: OneLine(b[i])
    requires Lines(a) == Lines(b)
    ensures a == b
    decreases |a|
  {
    if a != [] && b != [] {
      LinesHead(a);
      LinesHead(b);
      var x, y, s := a[0], b[0], Lines(a);
      assert x == s[..|x|] && y == s[..|y|];
      LineStops(x, y, s);
      LineStops(y, x, s);
      assert a == [x] + a[1..] && b == [y] + b[1..];
      if |a| > 1 {
        LinesInjective(a[1..], b[1..]);
      }
    }
  }

  function Digest(hash: string -> string, paths: seq<string>): string {
    "sha256:" + hash(Lines(Sorted(paths)))
  }

  /** They are the same up to an index at which `a` is smaller. */
  predicate DifferAt(a: string, b: string, k: nat) {
    k < |a| && k < |b| && a[..k] == b[..k] && a[k] < b[k]
  }

  /** By code points: `a` is a prefix of `b`, or smaller where they first differ. */
  ghost predicate Precedes(a: string, b: string) {
    a <= b || exists k: nat :: DifferAt(a, b, k)
  }

  lemma PrecedesCons(c: char, x: string, y: string)
    ensures Precedes([c] + x, [c] + y) <==> Precedes(x, y)
  {
    var a, b := [c] + x, [c] + y;
    assert a[1..] == x && b[1..] == y;
    if |x| <= |y| {
      assert b[..|a|] == [c] + y[..|x|];
      assert b[..|a|][1..] == y[..|x|];
    }
    if k: nat :| DifferAt(x, y, k) {
      var next := k + 1;
      assert a[..next] == [c] + x[..k] == [c] + y[..k] == b[..next];
      assert DifferAt(a, b, next);
    }
    if k: nat :| DifferAt(a, b, k) {
      var back := k - 1;
      assert a[..k][1..] == x[..back] && b[..k][1..] == y[..back];
      assert DifferAt(x, y, back);
    }
  }

  lemma {:induction false} LeMeans(a: string, b: string)
    ensures Le(a, b) <==> Precedes(a, b)
  {
    if a != "" && b != "" {
      if a[0] == b[0] {
        LeMeans(a[1..], b[1..]);
        PrecedesCons(a[0], a[1..], b[1..]);
        assert a == [a[0]] + a[1..] && b == [b[0]] + b[1..];
      } else {
        assert DifferAt(a, b, 0) <==> a[0] < b[0];
        assert forall k: nat | DifferAt(a, b, k) && k > 0 :: a[..k][0] == b[..k][0];
      }
    }
  }

  lemma {:induction false} LinesSnoc(ss: seq<string>, last: string)
    ensures Lines(ss + [last]) == if ss == [] then last else Lines(ss) + "\n" + last
  {
    var all := ss + [last];
    if ss != [] {
      assert all[1..] == ss[1..] + [last];
      LinesSnoc(ss[1..], last);
    }
  }

  /** The digest of paths, given in code-point order or in any other. */
  lemma DigestMeans(hash: string -> string, paths: seq<string>, sorted: seq<string>)
    requires multiset(paths) == multiset(sorted)
    requires forall i, j | 0 <= i < j < |sorted| :: Precedes(sorted[i], sorted[j])
    ensures Digest(hash, paths) == "sha256:" + hash(Lines(sorted))
  {
    forall i, j | 0 <= i < j < |sorted| ensures Le(sorted[i], sorted[j]) {
      LeMeans(sorted[i], sorted[j]);
    }
    SortedIsOrdered(paths);
    OrderedIsCanonical(Sorted(paths), sorted);
  }

  ghost predicate Injective(hash: string -> string) {
    forall s, t :: hash(s) == hash(t) ==> s == t
  }

  lemma DigestReadsLines(hash: string -> string, a: seq<string>, b: seq<string>)
    requires Injective(hash)
    ensures Digest(hash, a) == Digest(hash, b) <==> Lines(Sorted(a)) == Lines(Sorted(b))
  {
    var x, y := hash(Lines(Sorted(a))), hash(Lines(Sorted(b)));
    assert ("sha256:" + x)[|"sha256:"|..] == x && ("sha256:" + y)[|"sha256:"|..] == y;
  }

  lemma SortedKeepsOneLine(ss: seq<string>)
    requires forall i | 0 <= i < |ss| :: OneLine(ss[i])
    ensures forall i | 0 <= i < |Sorted(ss)| :: OneLine(Sorted(ss)[i])
  {
    forall i | 0 <= i < |Sorted(ss)| ensures OneLine(Sorted(ss)[i]) {
      assert Sorted(ss)[i] in multiset(ss);
    }
  }

  /** A digest names the multiset of changed paths: any reordering keeps it, and no other list
      of one-line paths has it. */
  lemma DigestIdentifiesPaths(hash: string -> string, a: seq<string>, b: seq<string>)
    requires Injective(hash)
    requires forall i | 0 <= i < |a| :: OneLine(a[i])
    requires forall i | 0 <= i < |b| :: OneLine(b[i])
    ensures Digest(hash, a) == Digest(hash, b) <==> multiset(a) == multiset(b)
  {
    DigestReadsLines(hash, a, b);
    SortedIsCanonical(a, b);
    SortedKeepsOneLine(a);
    SortedKeepsOneLine(b);
    if Lines(Sorted(a)) == Lines(Sorted(b)) {
      LinesInjective(Sorted(a), Sorted(b));
    }
  }

  /** The order of the paths never matters, whatever the paths and the hash. */
  lemma DigestIgnoresOrder(hash: string -> string, a: seq<string>, b: seq<string>)
    requires multiset(a) == multiset(b)
    ensures Digest(hash, a) == Digest(hash, b)
  {
    SortedIsCanonical(a, b);
  }

  /** Paths with a newline inside are not identified, even together with their number. */
  lemma NewlinePathsCollide(hash: string -> string)
    ensures var a, b := ["a\nb", "c"], ["a", "b\nc"];
      multiset(a) != multiset(b) && |a| == |b| && Digest(hash, a) == Digest(hash, b)
  {
    var a, b := ["a\nb", "c"], ["a", "b\nc"];
    assert Sorted(["c"]) == ["c"] && Sorted(["b\nc"]) == ["b\nc"];
    assert a[1..] == ["c"] && b[1..] == ["b\nc"];
    assert Sorted(a) == a && Sorted(b) == b;
    assert Lines(a) == "a\nb\nc" == Lines(b);
    assert "a" in multiset(b) && "a" !in multiset(a);
  }

  /** An empty path is no line at all. */
  lemma NoPathsAndEmptyPathCollide(hash: string -> string)
    ensures Digest(hash, []) == Digest(hash, [""])
  {
    assert [""][1..] == [];
    assert Sorted([""]) == [""] && Lines([""]) == "" == Lines(Sorted([]));
  }

  // ----- exactly when a digest is ambiguous -----

  ghost predicate AllOneLine(ss: seq<string>) {
    forall i | 0 <= i < |ss| :: OneLine(ss[i])
  }

  ghost predicate NoneEmpty(ss: seq<string>) {
    forall i | 0 <= i < |ss| :: ss[i] != ""
  }

  /** Of the lists with the digest of one-line paths, the reorderings are exactly those of one-line
      paths. */
  lemma OneLinePartners(hash: string -> string, a: seq<string>, b: seq<string>)
    requires Injective(hash) && AllOneLine(a) && Digest(hash, a) == Digest(hash, b)
    ensures multiset(a) == multiset(b) <==> AllOneLine(b)
  {
    if multiset(a) == multiset(b) {
      forall i | 0 <= i < |b| ensures OneLine(b[i]) {
        assert b[i] in multiset(a);
      }
    } else if AllOneLine(b) {
      DigestIdentifiesPaths(hash, a, b);
    }
  }

  lemma SortedOne(x: string)
    ensures Sorted([x]) == [x] && Lines([x]) == x
  {
    assert [x][1..] == [];
  }

  /** Every list of two or more paths has the digest of the one path that is all its lines. */
  lemma TwoPathsCollide(hash: string -> string, a: seq<string>)
    requires |a| >= 2
    ensures Digest(hash, a) == Digest(hash, [Lines(Sorted(a))]) && multiset(a) != multiset([Lines(Sorted(a))])
  {
    SortedOne(Lines(Sorted(a)));
    assert |multiset(a)| != |multiset([Lines(Sorted(a))])|;
  }

  /** A path that a newline splits into two paths in order. */
  ghost predicate SplitsAt(path: string, p: nat) {
    0 < p < |path| - 1 && path[p] == '\n' && Le(path[..p], path[p + 1..])
  }

  ghost predicate Splits(path: string) {
    exists p: nat :: SplitsAt(path, p)
  }

  lemma {:induction false} LePrefix(a: string, b: string)
    requires a <= b
    ensures Le(a, b)
  {
    if a != "" {
      LePrefix(a[1..], b[1..]);
    }
  }

  lemma SplitCollides(hash: string -> string, path: string, p: nat)
    requires SplitsAt(path, p)
    ensures Digest(hash, [path]) == Digest(hash, [path[..p], path[p + 1..]])
  {
    var x, y := path[..p], path[p + 1..];
    SortedOne(path);
    SortedOne(y);
    assert [x, y][1..] == [y] && Sorted([x, y]) == [x, y];
    assert Lines([x, y]) == x + "\n" + y == path;
  }

  lemma SortedKeepsNoneEmpty(ss: seq<string>)
    requires NoneEmpty(ss)
    ensures NoneEmpty(Sorted(ss))
  {
    forall i | 0 <= i < |Sorted(ss)| ensures Sorted(ss)[i] != "" {
      assert Sorted(ss)[i] in multiset(ss);
    }
  }

  /** The first of several ordered lines splits their text. */
  lemma OrderedLinesSplit(ss: seq<string>)
    requires |ss| >= 2 && Ordered(ss) && NoneEmpty(ss)
    ensures SplitsAt(Lines(ss), |ss[0]|)
  {
    var t, p := Lines(ss), |ss[0]|;
    LinesHead(ss);
    LinesHead(ss[1..]);
    assert t[p + 1..] == Lines(ss[1..]) && ss[1] <= Lines(ss[1..]);
    LePrefix(ss[1], Lines(ss[1..]));
    LeTransitive(ss[0], ss[1], Lines(ss[1..]));
    assert t[..p] == ss[0] && |t| == p + 1 + |Lines(ss[1..])|;
  }

  ghost predicate Ambiguous(hash: string -> string, a: seq<string>) {
    exists b :: NoneEmpty(b) && Digest(hash, a) == Digest(hash, b) && multiset(a) != multiset(b)
  }

  lemma SeveralLines(ss: seq<string>, path: string)
    requires Lines(ss) == path != "" && multiset(ss) != multiset([path])
    ensures |ss| >= 2
  {
    assert ss == [path] ==> multiset(ss) == multiset([path]);
  }

  lemma PartnerSplits(hash: string -> string, path: string, b: seq<string>)
    requires Injective(hash) && path != "" && NoneEmpty(b)
    requires Digest(hash, [path]) == Digest(hash, b) && multiset([path]) != multiset(b)
    ensures Splits(path)
  {
    DigestReadsLines(hash, [path], b);
    SortedOne(path);
    var ss := Sorted(b);
    SortedIsOrdered(b);
    SortedKeepsNoneEmpty(b);
    SeveralLines(ss, path);
    OrderedLinesSplit(ss);
  }

  lemma TwoAreAmbiguous(hash: string -> string, a: seq<string>)
    requires NoneEmpty(a) && |a| >= 2
    ensures Ambiguous(hash, a)
  {
    TwoPathsCollide(hash, a);
    SortedKeepsNoneEmpty(a);
    LinesHead(Sorted(a));
  }

  lemma SplitIsAmbiguous(hash: string -> string, path: string)
    requires Splits(path)
    ensures Ambiguous(hash, [path])
  {
    var p: nat :| SplitsAt(path, p);
    SplitCollides(hash, path, p);
    var two := [path[..p], path[p + 1..]];
    assert NoneEmpty(two) && |multiset([path])| != |multiset(two)|;
  }

  lemma AmbiguousSplits(hash: string -> string, path: string)
    requires Injective(hash) && path != "" && Ambiguous(hash, [path])
    ensures Splits(path)
  {
    var b :| NoneEmpty(b) && Digest(hash, [path]) == Digest(hash, b) && multiset([path]) != multiset(b);
    PartnerSplits(hash, path, b);
  }

  lemma NoPathsAreUnambiguous(hash: string -> string)
    requires Injective(hash)
    ensures !Ambiguous(hash, [])
  {
    forall b: seq<string> | NoneEmpty(b) && Digest(hash, []) == Digest(hash, b) ensures b == [] {
      DigestReadsLines(hash, [], b);
      SortedKeepsNoneEmpty(b);
      NoText(Sorted(b));
    }
  }

  lemma NoText(ss: seq<string>)
    requires NoneEmpty(ss) && Lines(ss) == ""
    ensures ss == []
  {
    if ss != [] {
      LinesHead(ss);
    }
  }

  /** A list of non-empty paths shares its digest with one that is not a reordering of it exactly
      when it has two paths or more, or its one path holds a newline that splits it into two
      non-empty paths in order. */
  lemma AmbiguousIff(hash: string -> string, a: seq<string>)
    requires Injective(hash) && NoneEmpty(a)
    ensures Ambiguous(hash, a) <==> |a| >= 2 || (|a| == 1 && Splits(a[0]))
  {
    if |a| >= 2 {
      TwoAreAmbiguous(hash, a);
    } else if |a| == 1 {
      assert a == [a[0]];
      if Splits(a[0]) {
        SplitIsAmbiguous(hash, a[0]);
      }
      if Ambiguous(hash, [a[0]]) {
        AmbiguousSplits(hash, a[0]);
      }
    } else {
      NoPathsAreUnambiguous(hash);
    }
  }
}
