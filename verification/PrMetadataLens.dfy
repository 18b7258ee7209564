/** The laws of the metadata block as a lens: put-get, put-put and frame, each with the exact
    condition on the body under which it holds. */
module PrMetadataLens {
  import opened Text
  import opened PrMetadata
  import Sequences

  // ----- a match depends only on the text up to its end -----

  lemma ScanFinds(s: string, p: nat, m: Match)
    requires p <= m.start && MatchAt(s, m.start) == Some(m)
    requires forall x | p <= x < m.start :: MatchAt(s, x) == None
    ensures Search(s, p) == Some(m)
  {
    SearchIsLeftmost(s, p);
  }

  lemma SamePrefix(u: string, v: string, n: nat, i: nat, j: nat)
    requires n <= |u| && n <= |v| && u[..n] == v[..n] && i <= j <= n
    ensures u[i..j] == v[i..j]
  {
    assert u[i..j] == u[..n][i..j] && v[i..j] == v[..n][i..j];
  }

  lemma HeaderNewline(s: string, p: nat)
    requires HeaderEnd(s, p).Some?
    ensures s[HeaderEnd(s, p).value - 1] == '\n'
  {
  }

  lemma HeaderLocal(u: string, v: string, n: nat, x: nat, c: nat)
    requires n <= |u| && n <= |v| && u[..n] == v[..n]
    requires x + 3 <= c < n && (u[c] == '\n' || u[c] == '`')
    ensures HeaderEnd(u, x) == HeaderEnd(v, x)
  {
    forall i | 0 <= i < n ensures u[i] == v[i] {
      assert u[..n][i] == v[..n][i];
    }
    InfoEndIsFirst(u, x + 3);
    InfoEndIsFirst(v, x + 3);
    SamePrefix(u, v, n, x, x + 3);
  }

  lemma FindLocal(u: string, v: string, n: nat, h: nat, k: nat)
    requires n <= |u| && n <= |v| && u[..n] == v[..n]
    requires Find(u, CLOSER, h) == Some(k) && k + 4 <= n
    ensures Find(v, CLOSER, h) == Some(k)
  {
    FindIsFirst(u, CLOSER, h);
    FindIsFirst(v, CLOSER, h);
    forall i | h <= i <= k
      ensures At(u, i, CLOSER) == At(v, i, CLOSER)
    {
      SamePrefix(u, v, n, i, i + 4);
    }
  }

  lemma CloseLocal(u: string, v: string, p: nat, h: nat, m: Match)
    requires p + 4 <= h <= |u| && Close(u, p, h) == Some(m) && m.end <= |v| && u[..m.end] == v[..m.end]
    ensures h <= |v| && Close(v, p, h) == Some(m)
  {
    FindLocal(u, v, m.end, h, m.end - 4);
    SamePrefix(u, v, m.end, p + 3, h - 1);
    SamePrefix(u, v, m.end, h, m.end - 4);
  }

  lemma MatchLocal(u: string, v: string, m: Match)
    requires MatchAt(u, m.start) == Some(m) && m.end <= |v| && u[..m.end] == v[..m.end]
    ensures MatchAt(v, m.start) == Some(m)
  {
    var h := HeaderEnd(u, m.start).value;
    HeaderNewline(u, m.start);
    HeaderLocal(u, v, m.end, m.start, h - 1);
    CloseLocal(u, v, m.start, h, m);
  }

  /** A header that opens before a match ends no later than the header of that match, so the
      closer of the match would close it too: before the leftmost match no header opens. */
  lemma NoHeaderBefore(u: string, m: Match, x: nat)
    requires MatchAt(u, m.start) == Some(m) && x < m.start && MatchAt(u, x) == None
    ensures HeaderEnd(u, x) == None
  {
    var h := HeaderEnd(u, m.start).value;
    FindIsFirst(u, CLOSER, h);
    HeaderNewline(u, m.start);
    if x + 3 <= |u| {
      InfoEndIsFirst(u, x + 3);
    }
    if HeaderEnd(u, x).Some? {
      FindIsFirst(u, CLOSER, HeaderEnd(u, x).value);
    }
  }

  lemma NoMatchLocal(u: string, v: string, m: Match, x: nat)
    requires MatchAt(u, m.start) == Some(m) && m.end <= |v| && u[..m.end] == v[..m.end]
    requires x < m.start && MatchAt(u, x) == None
    ensures MatchAt(v, x) == None
  {
    NoHeaderBefore(u, m, x);
    HeaderNewline(u, m.start);
    HeaderLocal(u, v, m.end, x, HeaderEnd(u, m.start).value - 1);
  }

  /** The leftmost match is the same in any text that agrees up to the end of that match. */
  lemma PrefixScan(u: string, v: string, p: nat, m: Match)
    requires Search(u, p) == Some(m) && m.end <= |v| && u[..m.end] == v[..m.end]
    ensures Search(v, p) == Some(m)
  {
    SearchIsLeftmost(u, p);
    MatchLocal(u, v, m);
    forall x | p <= x < m.start
      ensures MatchAt(v, x) == None
    {
      NoMatchLocal(u, v, m, x);
    }
    ScanFinds(v, p, m);
  }

  // ----- a scan depends only on the text from where it starts -----

  /** The named groups of a list of matches: what the scan says about the text, without positions. */
  function Groups(ms: seq<Match>): (r: seq<(string, string)>)
    ensures |r| == |ms|
  {
    if ms == [] then [] else [(ms[0].info, ms[0].body)] + Groups(ms[1..])
  }

  lemma {:induction false} InfoEndShift(u: string, x: nat, v: string, y: nat)
    requires x <= |u| && y <= |v| && u[x..] == v[y..]
    ensures InfoEnd(v, y) - y == InfoEnd(u, x) - x
    decreases |u| - x
  {
    if x < |u| {
      assert u[x] == u[x..][0] == v[y..][0] == v[y];
      assert u[x + 1..] == u[x..][1..] == v[y..][1..] == v[y + 1..];
      InfoEndShift(u, x + 1, v, y + 1);
    }
  }

  lemma {:induction false} FindShift(u: string, x: nat, v: string, y: nat, w: string)
    requires x <= |u| && y <= |v| && u[x..] == v[y..] && w != ""
    ensures Find(u, w, x).None? == Find(v, w, y).None?
    ensures Find(u, w, x).Some? ==> Find(v, w, y).value - y == Find(u, w, x).value - x
    decreases |u| - x
  {
    if x + |w| <= |u| {
      assert u[x..x + |w|] == u[x..][..|w|] == v[y..][..|w|] == v[y..y + |w|];
      assert u[x + 1..] == u[x..][1..] == v[y..][1..] == v[y + 1..];
      FindShift(u, x + 1, v, y + 1, w);
    }
  }

  ghost predicate Moved(a: Option<Match>, p: int, b: Option<Match>, q: int) {
    match (a, b)
    case (None, None) => true
    case (Some(m), Some(n)) =>
      m.info == n.info && m.body == n.body && m.start - p == n.start - q && m.end - p == n.end - q
    case _ => false
  }

  lemma SliceOfDrop(u: string, x: nat, i: nat, j: nat)
    requires x <= |u| && i <= j <= |u| - x
    ensures u[x + i..x + j] == u[x..][i..j] && u[x + i..] == u[x..][i..]
  {
  }

  lemma SameSuffix(u: string, x: nat, v: string, y: nat, i: nat, j: nat)
    requires x <= |u| && y <= |v| && u[x..] == v[y..] && i <= j <= |u| - x
    ensures u[x + i..x + j] == v[y + i..y + j] && u[x + i..] == v[y + i..]
  {
    SliceOfDrop(u, x, i, j);
    SliceOfDrop(v, y, i, j);
  }

  lemma HeaderShift(u: string, x: nat, v: string, y: nat)
    requires x <= |u| && y <= |v| && u[x..] == v[y..]
    ensures HeaderEnd(u, x).None? == HeaderEnd(v, y).None?
    ensures HeaderEnd(u, x).Some? ==> HeaderEnd(v, y).value - y == HeaderEnd(u, x).value - x
  {
    if x + 3 <= |u| {
      SameSuffix(u, x, v, y, 0, 3);
      SameSuffix(u, x, v, y, 3, 3);
      InfoEndShift(u, x + 3, v, y + 3);
      var i := InfoEnd(u, x + 3) - x;
      if x + i < |u| {
        SameSuffix(u, x, v, y, i, i);
        assert u[x + i] == u[x + i..][0] == v[y + i..][0] == v[y + i];
      }
    }
  }

  lemma CloseShift(u: string, x: nat, v: string, y: nat, g: nat, h: nat)
    requires x <= |u| && y <= |v| && u[x..] == v[y..] && x + 4 <= g <= |u| && h - y == g - x
    ensures h <= |v| && Moved(Close(u, x, g), x, Close(v, y, h), y)
  {
    SameSuffix(u, x, v, y, g - x, g - x);
    FindShift(u, g, v, h, CLOSER);
    SameSuffix(u, x, v, y, 3, g - x - 1);
    var k := Find(u, CLOSER, g);
    if k.Some? {
      SameSuffix(u, x, v, y, g - x, k.value - x);
    }
  }

  lemma MatchShift(u: string, x: nat, v: string, y: nat)
    requires x <= |u| && y <= |v| && u[x..] == v[y..]
    ensures Moved(MatchAt(u, x), x, MatchAt(v, y), y)
  {
    HeaderShift(u, x, v, y);
    var g, h := HeaderEnd(u, x), HeaderEnd(v, y);
    if g.Some? {
      CloseShift(u, x, v, y, g.value, h.value);
      assert MatchAt(u, x) == Close(u, x, g.value) && MatchAt(v, y) == Close(v, y, h.value);
    } else {
      assert MatchAt(u, x) == None && MatchAt(v, y) == None;
    }
  }

  lemma {:induction false} SearchShift(u: string, x: nat, v: string, y: nat)
    requires x <= |u| && y <= |v| && u[x..] == v[y..]
    ensures Moved(Search(u, x), x, Search(v, y), y)
    decreases |u| - x
  {
    MatchShift(u, x, v, y);
    if x < |u| && MatchAt(u, x).None? {
      assert u[x + 1..] == u[x..][1..] == v[y..][1..] == v[y + 1..];
      SearchShift(u, x + 1, v, y + 1);
    }
  }

  /** Scanning two texts from places where the rest is the same text yields the same groups. */
  lemma {:induction false} SuffixScan(u: string, x: nat, v: string, y: nat)
    requires x <= |u| && y <= |v| && u[x..] == v[y..]
    ensures Groups(FindIter(u, x)) == Groups(FindIter(v, y))
    decreases |u| - x
  {
    SearchShift(u, x, v, y);
    if Search(u, x).Some? {
      var m, n := Search(u, x).value, Search(v, y).value;
      assert u[m.end..] == u[x..][m.end - x..] == v[y..][n.end - y..] == v[n.end..];
      SuffixScan(u, m.end, v, n.end);
      assert FindIter(u, x)[1..] == FindIter(u, m.end) && FindIter(v, y)[1..] == FindIter(v, n.end);
    }
  }

  // ----- the rendered block as a match -----

  ghost predicate Plain(info: string) {
    forall i | 0 <= i < |info| :: info[i] != '\n' && info[i] != '`'
  }

  lemma FencedParts(info: string, json: string)
    ensures var b, h := Fenced(info, json), |info| + 4;
      && |b| == h + |json| + 4
      && b[..3] == FENCE && b[3..h - 1] == info && b[h - 1] == '\n'
      && b[h..h + |json|] == json && b[h + |json|..] == CLOSER
  {
    var b, h := Fenced(info, json), |info| + 4;
    var head := FENCE + info + "\n";
    assert |FENCE| == 3 && |CLOSER| == 4;
    assert |head| == h && b == head + json + CLOSER;
    assert b[..h] == head && b[h..h + |json|] == json;
    assert b[h + |json|..] == CLOSER;
    assert b[..3] == head[..3] == FENCE;
    assert b[3..h - 1] == head[3..h - 1] == info;
    assert b[h - 1] == head[h - 1] == '\n';
  }

  /** The closer that ends a rendered block is the only one in it. */
  lemma NoCloserInside(info: string, json: string, k: nat)
    requires Plain(info) && Dumped(json) && k < |info| + 4 + |json|
    ensures !At(Fenced(info, json), k, CLOSER)
  {
    var b, h := Fenced(info, json), |info| + 4;
    FencedParts(info, json);
    var w := b[k..k + 4];
    if k < h - 1 {
      assert w[0] == b[k] == if k < 3 then FENCE[k] else info[k - 3];
    } else if k == h - 1 {
      assert w[1] == b[h] == json[0];
    } else if k + 4 <= h + |json| {
      var o := k - h;
      forall i | 0 <= i < 4 ensures w[i] == json[o + i] {
        assert b[h + (o + i)] == b[h..h + |json|][o + i];
      }
      assert w == json[o..o + 4] && !At(json, o, CLOSER);
    } else {
      var i := h + |json| - 1 - k;
      assert w[i] == b[h + |json| - 1] == b[h..h + |json|][|json| - 1] == '}';
      assert CLOSER[i] == '\n' || CLOSER[i] == '`';
    }
  }

  lemma HeaderOfFenced(info: string, json: string)
    requires Plain(info)
    ensures HeaderEnd(Fenced(info, json), 0) == Some(|info| + 4)
  {
    var b, h := Fenced(info, json), |info| + 4;
    FencedParts(info, json);
    forall i | 3 <= i < h - 1 ensures b[i] != '\n' && b[i] != '`' {
      assert b[i] == b[3..h - 1][i - 3] == info[i - 3];
    }
    InfoEndIsFirst(b, 3);
    assert InfoEnd(b, 0 + 3) == h - 1;
    assert b[0..0 + 3] == b[..3];
    assert At(b, 0, FENCE);
  }

  lemma FencedCloses(info: string, json: string)
    requires Plain(info) && Dumped(json)
    ensures var b := Fenced(info, json); MatchAt(b, 0) == Some(Match(0, info, json, |b|))
  {
    var b, h := Fenced(info, json), |info| + 4;
    FencedParts(info, json);
    forall k | h <= k < |b| - 4 ensures !At(b, k, CLOSER) {
      NoCloserInside(info, json, k);
    }
    assert At(b, |b| - 4, CLOSER);
    FindIsFirst(b, CLOSER, h);
    assert Find(b, CLOSER, h) == Some(|b| - 4);
    assert Close(b, 0, h) == Some(Match(0, info, json, |b|));
    HeaderOfFenced(info, json);
  }

  /** The whole text `b` is one fence with the given groups. */
  ghost predicate Whole(b: string, info: string, body: string) {
    MatchAt(b, 0) == Some(Match(0, info, body, |b|))
  }

  /** A fence is a match with the same groups wherever it stands. */
  lemma WholeMatches(v: string, p: nat, b: string, info: string, body: string)
    requires Whole(b, info, body) && At(v, p, b)
    ensures MatchAt(v, p) == Some(Match(p, info, body, p + |b|))
  {
    var u := v[p..];
    assert u[..|b|] == v[p..p + |b|] == b == b[..|b|];
    MatchLocal(b, u, Match(0, info, body, |b|));
    assert u == u[0..];
    MatchShift(u, 0, v, p);
  }

  lemma InfoIsPlain()
    ensures Plain(INFO)
  {
  }

  lemma BlockIsWhole(json: string)
    requires Dumped(json)
    ensures Whole(Block(json), INFO, json)
  {
    InfoIsPlain();
    FencedCloses(INFO, json);
  }

  // ----- replacing a block -----

  /** Nothing before a match becomes a match when the text from its fence on is replaced. */
  lemma NoMatchBeforeFence(u: string, v: string, m: Match, x: nat)
    requires MatchAt(u, m.start) == Some(m) && x < m.start && MatchAt(u, x) == None
    requires m.start + 3 <= |v| && u[..m.start + 3] == v[..m.start + 3]
    ensures MatchAt(v, x) == None
  {
    NoHeaderBefore(u, m, x);
    var c := if x + 3 > m.start then x + 3 else m.start;
    assert u[m.start..m.start + 3] == FENCE;
    assert u[c] == u[m.start..m.start + 3][c - m.start] == '`';
    HeaderLocal(u, v, m.start + 3, x, c);
  }

  /** `v` is `s` with the text from `lo` to `hi` replaced by `b`. */
  ghost predicate Spliced(s: string, lo: nat, hi: nat, b: string, v: string) {
    && lo <= hi <= |s| && At(v, lo, b)
    && v[..lo] == s[..lo] && v[lo + |b|..] == s[hi..]
  }

  lemma SpliceFacts(s: string, lo: nat, hi: nat, b: string)
    requires lo <= hi <= |s|
    ensures Spliced(s, lo, hi, b, s[..lo] + b + s[hi..])
  {
    var v := s[..lo] + b + s[hi..];
    assert v[lo..lo + |b|] == b && v[..lo] == s[..lo] && v[lo + |b|..] == s[hi..];
  }

  lemma MatchOpens(s: string, p: nat)
    requires MatchAt(s, p).Some?
    ensures p + 3 <= |s| && s[p..p + 3] == FENCE
  {
  }

  lemma SameOpening(s: string, v: string, lo: nat)
    requires lo + 3 <= |s| && lo + 3 <= |v| && s[..lo] == v[..lo]
    requires s[lo..lo + 3] == v[lo..lo + 3]
    ensures s[..lo + 3] == v[..lo + 3]
  {
    assert s[..lo + 3] == s[..lo] + s[lo..lo + 3];
    assert v[..lo + 3] == v[..lo] + v[lo..lo + 3];
  }

  lemma ReplaceHere(s: string, p: nat, m: Match, b: string, info: string, body: string, v: string)
    requires Whole(b, info, body) && Search(s, p) == Some(m) && Spliced(s, m.start, m.end, b, v)
    ensures Search(v, p) == Some(Match(m.start, info, body, m.start + |b|))
  {
    SearchIsLeftmost(s, p);
    WholeMatches(v, m.start, b, info, body);
    SameUpToFence(s, v, m.start);
    NoneBeforeFence(s, v, m, p);
    ScanFinds(v, p, Match(m.start, info, body, m.start + |b|));
  }

  lemma SameUpToFence(s: string, v: string, lo: nat)
    requires MatchAt(s, lo).Some? && MatchAt(v, lo).Some? && s[..lo] == v[..lo]
    ensures lo + 3 <= |s| && lo + 3 <= |v| && s[..lo + 3] == v[..lo + 3]
  {
    MatchOpens(s, lo);
    MatchOpens(v, lo);
    SameOpening(s, v, lo);
  }

  lemma NoneBeforeFence(u: string, v: string, m: Match, p: nat)
    requires MatchAt(u, m.start) == Some(m) && forall x | p <= x < m.start :: MatchAt(u, x) == None
    requires m.start + 3 <= |v| && u[..m.start + 3] == v[..m.start + 3]
    ensures forall x | p <= x < m.start :: MatchAt(v, x) == None
  {
    forall x | p <= x < m.start ensures MatchAt(v, x) == None {
      NoMatchBeforeFence(u, v, m, x);
    }
  }

  lemma FindIterUnfold(s: string, p: nat)
    requires Search(s, p).Some?
    ensures var m := Search(s, p).value; FindIter(s, p) == [m] + FindIter(s, m.end)
  {
  }

  /** The groups with those of the first accepted match replaced. */
  function ReplaceFirst(gs: seq<(string, string)>, accept: string -> bool, g: (string, string)): seq<(string, string)> {
    if gs == [] then []
    else if accept(gs[0].0) then [g] + gs[1..]
    else [gs[0]] + ReplaceFirst(gs[1..], accept, g)
  }

  lemma ReplaceHead(m: Match, rest: seq<Match>, n: Match, rest': seq<Match>, accept: string -> bool)
    requires accept(m.info) && accept(n.info) && Groups(rest') == Groups(rest)
    ensures First([n] + rest', accept) == Some(n)
    ensures Groups([n] + rest') == ReplaceFirst(Groups([m] + rest), accept, (n.info, n.body))
  {
    assert ([n] + rest')[1..] == rest' && ([m] + rest)[1..] == rest;
  }

  lemma ReplaceTail(m: Match, rest: seq<Match>, n: Match, rest': seq<Match>, accept: string -> bool)
    requires !accept(m.info) && First(rest', accept) == Some(n)
    requires Groups(rest') == ReplaceFirst(Groups(rest), accept, (n.info, n.body))
    ensures First([m] + rest', accept) == Some(n)
    ensures Groups([m] + rest') == ReplaceFirst(Groups([m] + rest), accept, (n.info, n.body))
  {
    assert ([m] + rest')[1..] == rest' && ([m] + rest)[1..] == rest;
  }

  lemma ReplaceScanHere(s: string, p: nat, m: Match, b: string, info: string, body: string, v: string)
    requires Whole(b, info, body) && Search(s, p) == Some(m) && Spliced(s, m.start, m.end, b, v)
    ensures var n := Match(m.start, info, body, m.start + |b|);
      FindIter(v, p) == [n] + FindIter(v, n.end)
  {
    ReplaceHere(s, p, m, b, info, body, v);
    FindIterUnfold(v, p);
  }

  lemma RestUnchanged(s: string, lo: nat, hi: nat, b: string, v: string, y: nat)
    requires Spliced(s, lo, hi, b, v) && y == lo + |b|
    ensures Groups(FindIter(v, y)) == Groups(FindIter(s, hi))
  {
    SuffixScan(v, y, s, hi);
  }

  lemma ReplaceScanThere(s: string, p: nat, m: Match, v: string, lo: nat)
    requires Search(s, p) == Some(m) && m.end <= lo <= |v| && lo <= |s| && v[..lo] == s[..lo]
    ensures FindIter(v, p) == [m] + FindIter(v, m.end)
  {
    assert v[..m.end] == v[..lo][..m.end] == s[..lo][..m.end] == s[..m.end];
    PrefixScan(s, v, p, m);
    FindIterUnfold(v, p);
  }

  /** Writing a fence over the first accepted match changes that one match and no other. */
  lemma {:induction false} ReplaceScan(s: string, p: nat, accept: string -> bool, m: Match,
                                       b: string, info: string, body: string, v: string)
    requires Whole(b, info, body) && accept(info) && First(FindIter(s, p), accept) == Some(m)
    requires Spliced(s, m.start, m.end, b, v)
    ensures First(FindIter(v, p), accept) == Some(Match(m.start, info, body, m.start + |b|))
    ensures Groups(FindIter(v, p)) == ReplaceFirst(Groups(FindIter(s, p)), accept, (info, body))
    decreases |s| - p
  {
    var n := Match(m.start, info, body, m.start + |b|);
    var m0 := Search(s, p).value;
    var rest := FindIter(s, m0.end);
    FindIterUnfold(s, p);
    assert ([m0] + rest)[1..] == rest;
    if accept(m0.info) {
      ReplaceScanHere(s, p, m, b, info, body, v);
      RestUnchanged(s, m.start, m.end, b, v, n.end);
      ReplaceHead(m0, rest, n, FindIter(v, n.end), accept);
    } else {
      ReplaceScanThere(s, p, m0, v, m.start);
      ReplaceScan(s, m0.end, accept, m, b, info, body, v);
      ReplaceTail(m0, rest, n, FindIter(v, m0.end), accept);
    }
  }

  // ----- appending a block -----

  /** `v` is `u`, then text without a backtick up to `q`, then the fence `b` and a newline. */
  ghost predicate Appended(u: string, q: nat, b: string, v: string) {
    && 0 < |u| < q <= |v| && u[|u| - 1] == '\n' && v[..|u|] == u
    && (forall i | |u| <= i < q :: v[i] != '`') && v[q - 1] == '\n'
    && At(v, q, b) && |v| == q + |b| + 1 && v[q + |b|] == '\n'
  }

  lemma NoBacktickNoHeader(v: string, x: nat, i: nat)
    requires x <= i < |v| && i < x + 3 && v[i] != '`'
    ensures HeaderEnd(v, x) == None
  {
    if x + 3 <= |v| {
      assert v[x..x + 3][i - x] == v[i];
    }
  }

  /** Text that ends in a newline fixes every header that opens in it. */
  lemma HeaderKept(u: string, v: string, x: nat)
    requires x < |u| <= |v| && u[|u| - 1] == '\n' && v[..|u|] == u
    ensures HeaderEnd(v, x) == HeaderEnd(u, x)
  {
    var c := |u| - 1;
    assert v[c] == v[..|u|][c] && u == u[..|u|];
    if x + 3 <= c {
      HeaderLocal(u, v, |u|, x, c);
    } else {
      NoBacktickNoHeader(u, x, c);
      NoBacktickNoHeader(v, x, c);
    }
  }

  lemma NothingAfter(v: string, p: nat)
    requires p + 1 == |v| && v[p] == '\n'
    ensures FindIter(v, p) == []
  {
    NoBacktickNoHeader(v, p, p);
    assert Search(v, p) == Search(v, p + 1) == None;
  }

  /** Nothing opens between the end of the scan of `u` and the appended fence. */
  lemma AppendBase(u: string, p: nat, q: nat, b: string, info: string, body: string, v: string)
    requires Whole(b, info, body) && Appended(u, q, b, v) && p <= |u|
    requires Search(u, p) == None && !OpenerFrom(u, p)
    ensures FindIter(v, p) == [Match(q, info, body, q + |b|)]
  {
    forall x | p <= x < q ensures MatchAt(v, x) == None {
      NoneBeforeAppended(u, p, q, b, v, x);
    }
    WholeMatches(v, q, b, info, body);
    ScanEndsWith(v, p, Match(q, info, body, q + |b|));
  }

  lemma NoneBeforeAppended(u: string, p: nat, q: nat, b: string, v: string, x: nat)
    requires Appended(u, q, b, v) && !OpenerFrom(u, p) && p <= x < q
    ensures MatchAt(v, x) == None
  {
    if x < |u| {
      HeaderKept(u, v, x);
    } else {
      NoBacktickNoHeader(v, x, x);
    }
  }

  /** A match that only a newline follows is the last of the scan that finds it. */
  lemma ScanEndsWith(v: string, p: nat, m: Match)
    requires p <= m.start && MatchAt(v, m.start) == Some(m)
    requires forall x | p <= x < m.start :: MatchAt(v, x) == None
    requires m.end + 1 == |v| && v[m.end] == '\n'
    ensures FindIter(v, p) == [m]
  {
    ScanFinds(v, p, m);
    FindIterUnfold(v, p);
    NothingAfter(v, m.end);
  }

  lemma AppendStep(u: string, p: nat, q: nat, b: string, v: string)
    requires Appended(u, q, b, v) && Search(u, p).Some?
    ensures Search(v, p) == Search(u, p)
  {
    var m := Search(u, p).value;
    assert v[..m.end] == v[..|u|][..m.end] == u[..m.end];
    PrefixScan(u, v, p, m);
  }

  /** When nothing dangles, appending a fence adds one match at the end. */
  lemma {:induction false} AppendScan(u: string, p: nat, q: nat, b: string, info: string, body: string, v: string)
    requires Whole(b, info, body) && Appended(u, q, b, v) && p <= |u|
    requires !OpenerFrom(u, ScanEnd(u, p))
    ensures FindIter(v, p) == FindIter(u, p) + [Match(q, info, body, q + |b|)]
    decreases |u| - p
  {
    if Search(u, p).None? {
      AppendBase(u, p, q, b, info, body, v);
    } else {
      var m0 := Search(u, p).value;
      AppendStep(u, p, q, b, v);
      AppendScan(u, m0.end, q, b, info, body, v);
      FindIterUnfold(u, p);
      FindIterUnfold(v, p);
      Sequences.Assoc([m0], FindIter(u, m0.end), [Match(q, info, body, q + |b|)]);
    }
  }

  // ----- appending after a dangling opener -----

  lemma NoCloserOver(v: string, k: nat, i: nat)
    requires k < i < k + 4 && i < |v| && v[i] != '`'
    ensures !At(v, k, CLOSER)
  {
    if k + 4 <= |v| {
      assert v[k..k + 4][i - k] == v[i];
    }
  }

  lemma FenceAfterNewline(v: string, q: nat, b: string)
    requires 0 < q && q <= |v| && v[q - 1] == '\n' && At(v, q, b) && |b| >= 3 && b[..3] == FENCE
    ensures At(v, q - 1, CLOSER)
  {
    var w := v[q..q + |b|];
    assert v[q..q + 3] == w[..3];
    assert v[q - 1..q + 3] == [v[q - 1]] + v[q..q + 3];
  }

  lemma NoCloserBefore(u: string, q: nat, b: string, v: string, k: nat)
    requires Appended(u, q, b, v) && k < q - 1 && !At(u, k, CLOSER)
    ensures !At(v, k, CLOSER)
  {
    if k + 4 <= |u| {
      SamePrefix(u, v, |u|, k, k + 4);
    } else if k + 1 < |u| {
      assert v[|u| - 1] == v[..|u|][|u| - 1];
      NoCloserOver(v, k, |u| - 1);
    } else {
      NoCloserOver(v, k, k + 1);
    }
  }

  /** The first closer after an unclosed header of `u` is the opening of the appended fence. */
  lemma DanglingCloser(u: string, q: nat, b: string, v: string, h: nat)
    requires Appended(u, q, b, v) && |b| >= 3 && b[..3] == FENCE
    requires h <= |u| && Find(u, CLOSER, h) == None
    ensures Find(v, CLOSER, h) == Some(q - 1)
  {
    FindIsFirst(u, CLOSER, h);
    FenceAfterNewline(v, q, b);
    forall k | h <= k < q - 1 ensures !At(v, k, CLOSER) {
      NoCloserBefore(u, q, b, v, k);
    }
    FindsFirst(v, CLOSER, h, q - 1);
  }

  lemma FindsFirst(v: string, w: string, h: nat, c: nat)
    requires h <= c && At(v, c, w) && forall k | h <= k < c :: !At(v, k, w)
    ensures Find(v, w, h) == Some(c)
  {
    FindIsFirst(v, w, h);
  }

  lemma ClosedAt(v: string, x: nat, h: nat, k: nat) returns (d: Match)
    requires HeaderEnd(v, x) == Some(h) && Find(v, CLOSER, h) == Some(k)
    ensures MatchAt(v, x) == Some(d) && d.start == x && x + |d.info| + 4 == h
    ensures d.end == k + 4 && d.body == v[h..k]
  {
    d := Match(x, v[x + 3..h - 1], v[h..k], k + 4);
  }

  /** The match of an opener of `u` that has the opening backticks at `q` for its closer. */
  ghost predicate DanglesTo(d: Match, u: string, q: nat, v: string) {
    var h := d.start + |d.info| + 4;
    h <= |u| < q <= |v| && d.end == q + 3 && d.body == v[h..q - 1]
  }

  /** A dangling opener takes the opening backticks of the appended fence for its closer. */
  lemma DanglingBase(u: string, p: nat, q: nat, b: string, v: string) returns (d: Match)
    requires Appended(u, q, b, v) && |b| >= 3 && b[..3] == FENCE && p <= |u|
    requires Search(u, p) == None && OpenerFrom(u, p)
    ensures Search(v, p) == Some(d) && DanglesTo(d, u, q, v)
  {
    var x := FirstOpener(u, p);
    var h := HeaderEnd(u, x).value;
    UnclosedAt(u, p, x);
    d := DanglingAt(u, p, q, b, v, x, h, q - 1);
  }

  lemma DanglingAt(u: string, p: nat, q: nat, b: string, v: string, x: nat, h: nat, k: nat) returns (d: Match)
    requires Appended(u, q, b, v) && |b| >= 3 && b[..3] == FENCE && k == q - 1
    requires p <= x < |u| && HeaderEnd(u, x) == Some(h) && Find(u, CLOSER, h) == None
    requires forall y | p <= y < x :: HeaderEnd(u, y).None?
    ensures Search(v, p) == Some(d) && DanglesTo(d, u, q, v)
  {
    DanglingCloser(u, q, b, v, h);
    HeaderKept(u, v, x);
    NoneBeforeOpener(u, v, p, x);
    d := ClosedFirst(v, p, x, h, k);
  }

  lemma ClosedFirst(v: string, p: nat, x: nat, h: nat, k: nat) returns (d: Match)
    requires p <= x && HeaderEnd(v, x) == Some(h) && Find(v, CLOSER, h) == Some(k)
    requires forall y | p <= y < x :: MatchAt(v, y) == None
    ensures Search(v, p) == Some(d) && d.start + |d.info| + 4 == h && d.end == k + 4 && d.body == v[h..k]
  {
    d := ClosedAt(v, x, h, k);
    ScanFinds(v, p, d);
  }

  lemma NoneBeforeOpener(u: string, v: string, p: nat, x: nat)
    requires x < |u| <= |v| && u[|u| - 1] == '\n' && v[..|u|] == u
    requires forall y | p <= y < x :: HeaderEnd(u, y).None?
    ensures forall y | p <= y < x :: MatchAt(v, y) == None
  {
    forall y | p <= y < x ensures MatchAt(v, y) == None {
      HeaderKept(u, v, y);
    }
  }

  /** A header that opens where the scan finds nothing has no closer. */
  lemma UnclosedAt(u: string, p: nat, x: nat)
    requires p <= x < |u| && Search(u, p) == None && HeaderEnd(u, x).Some?
    ensures Find(u, CLOSER, HeaderEnd(u, x).value) == None
  {
    SearchIsLeftmost(u, p);
    assert MatchAt(u, x) == None;
  }

  lemma {:induction false} FirstOpener(u: string, p: nat) returns (x: nat)
    requires OpenerFrom(u, p)
    ensures p <= x < |u| && HeaderEnd(u, x).Some? && forall y | p <= y < x :: HeaderEnd(u, y).None?
    decreases |u| - p
  {
    if HeaderEnd(u, p).Some? {
      x := p;
    } else {
      x := FirstOpener(u, p + 1);
    }
  }

  lemma {:induction false} DanglingScan(u: string, p: nat, q: nat, b: string, v: string, e: nat) returns (d: Match)
    requires Appended(u, q, b, v) && |b| >= 3 && b[..3] == FENCE && p <= |u| && e == q + 3
    requires OpenerFrom(u, ScanEnd(u, p))
    ensures DanglesTo(d, u, q, v)
    ensures FindIter(v, p) == FindIter(u, p) + [d] + FindIter(v, e)
    decreases |u| - p
  {
    if Search(u, p).None? {
      d := DanglingBase(u, p, q, b, v);
      DanglingEnd(u, p, v, d, e);
    } else {
      var m0 := Search(u, p).value;
      d := DanglingScan(u, m0.end, q, b, v, e);
      AppendStep(u, p, q, b, v);
      DanglingStep(u, p, v, m0, d, FindIter(v, e));
    }
  }

  lemma DanglingEnd(u: string, p: nat, v: string, d: Match, e: nat)
    requires Search(u, p) == None && Search(v, p) == Some(d) && d.end == e
    ensures FindIter(v, p) == FindIter(u, p) + [d] + FindIter(v, e)
  {
    FindIterUnfold(v, p);
    Sequences.SumNone([d]);
  }

  lemma DanglingStep(u: string, p: nat, v: string, m: Match, d: Match, ns: seq<Match>)
    requires Search(u, p) == Some(m) == Search(v, p) && FindIter(v, m.end) == FindIter(u, m.end) + [d] + ns
    ensures FindIter(v, p) == FindIter(u, p) + [d] + ns
  {
    FindIterUnfold(u, p);
    FindIterUnfold(v, p);
    ConsAppend(m, FindIter(u, m.end), d, ns);
  }

  lemma ConsAppend(m: Match, ms: seq<Match>, d: Match, ns: seq<Match>)
    ensures [m] + (ms + [d] + ns) == [m] + ms + [d] + ns
  {
  }
}
