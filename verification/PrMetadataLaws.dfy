/** Put-get, put-put and frame for the pr-delivery-metadata block. Each of the first two holds
    for exactly the settled bodies; the frame law says what an upsert leaves alone. */
module PrMetadataLaws {
  import opened Text
  import opened PrMetadata
  import opened PrMetadataLens

  // ----- trimming the body keeps its matches -----

  lemma MatchEndsInBacktick(s: string, p: nat)
    requires Search(s, p).Some?
    ensures s[Search(s, p).value.end - 1] == '`'
  {
    SearchIsLeftmost(s, p);
    var m := Search(s, p).value;
    FindIsFirst(s, CLOSER, HeaderEnd(s, m.start).value);
    assert s[m.end - 1] == s[m.end - 4..m.end][3];
  }

  lemma SearchTrimmed(s: string, t: string, u: string, p: nat)
    requires t == RStrip(s) && u == t + "\n"
    ensures Search(s, p) == Search(u, p)
  {
    if Search(s, p).Some? {
      MatchEndsInBacktick(s, p);
      var m := Search(s, p).value;
      assert s[..m.end] == t[..m.end] == u[..m.end];
      PrefixScan(s, u, p, m);
    } else if Search(u, p).Some? {
      MatchEndsInBacktick(u, p);
      var m := Search(u, p).value;
      assert u[..m.end] == t[..m.end] == s[..m.end];
      PrefixScan(u, s, p, m);
    }
  }

  lemma {:induction false} ScanTrimmed(s: string, t: string, u: string, p: nat)
    requires t == RStrip(s) && u == t + "\n"
    ensures FindIter(s, p) == FindIter(u, p)
    decreases |s| - p
  {
    SearchTrimmed(s, t, u, p);
    if Search(s, p).Some? {
      ScanTrimmed(s, t, u, Search(s, p).value.end);
      FindIterUnfold(s, p);
      FindIterUnfold(u, p);
    }
  }

  // ----- the text an append writes -----

  lemma HeadingHasNoBacktick()
    ensures forall i | 0 <= i < |HEADING| :: HEADING[i] != '`'
    ensures |HEADING| > 2 && HEADING[|HEADING| - 1] == '\n' == HEADING[|HEADING| - 2]
    ensures HEADING[|HEADING| - 3] == 'a'
  {
  }

  lemma AppendedText(t: string, u: string, b: string, v: string, q: nat)
    requires u == t + "\n" && v == t + "\n" + HEADING + b + "\n" && q == |u| + |HEADING|
    ensures Appended(u, q, b, v)
    ensures v[q - 2] == '\n' && v[q - 3] == 'a' && v[|u|..q] == HEADING
  {
    HeadingHasNoBacktick();
    assert v == u + HEADING + b + "\n";
    assert v[..|u|] == u && v[|u|..q] == HEADING && v[q..q + |b|] == b;
    forall i | |u| <= i < q ensures v[i] == HEADING[i - |u|] {
      assert v[|u|..q][i - |u|] == v[i];
    }
  }

  lemma FirstAppend(ms: seq<Match>, ns: seq<Match>, accept: string -> bool)
    ensures First(ms + ns, accept) == if First(ms, accept).Some? then First(ms, accept) else First(ns, accept)
  {
    if ms == [] {
      assert ms + ns == ns;
    } else {
      assert (ms + ns)[1..] == ms[1..] + ns;
      FirstAppend(ms[1..], ns, accept);
    }
  }

  lemma GroupsAppend(ms: seq<Match>, ns: seq<Match>)
    ensures Groups(ms + ns) == Groups(ms) + Groups(ns)
  {
    if ms == [] {
      assert ms + ns == ns;
    } else {
      assert (ms + ns)[1..] == ms[1..] + ns;
      GroupsAppend(ms[1..], ns);
    }
  }

  // ----- the scan of what a write leaves, case by case -----

  lemma WriteSplices(markdown: string, accept: string -> bool, b: string, m: Match)
    requires First(FindIter(markdown, 0), accept) == Some(m)
    ensures Spliced(markdown, m.start, m.end, b, Write(markdown, accept, b))
  {
    SpliceFacts(markdown, m.start, m.end, b);
  }

  /** A body with an accepted match: the write lands on that match. */
  lemma WriteReplaces(markdown: string, accept: string -> bool, b: string, info: string, json: string,
                      v: string, m: Match)
    requires Whole(b, info, json) && accept(info) && First(FindIter(markdown, 0), accept) == Some(m)
    requires Spliced(markdown, m.start, m.end, b, v)
    ensures First(FindIter(v, 0), accept) == Some(Match(m.start, info, json, m.start + |b|))
    ensures Groups(FindIter(v, 0)) == ReplaceFirst(Groups(FindIter(markdown, 0)), accept, (info, json))
  {
    ReplaceScan(markdown, 0, accept, m, b, info, json, v);
  }

  /** A settled body without an accepted match: the write appends one match. */
  lemma WriteAppends(markdown: string, accept: string -> bool, b: string, info: string, json: string, v: string)
    returns (q: nat)
    requires Whole(b, info, json) && SettledFor(markdown, accept) && !HasBlock(markdown, accept)
    requires v == Write(markdown, accept, b)
    ensures FindIter(v, 0) == FindIter(markdown, 0) + [Match(q, info, json, q + |b|)]
    ensures q == if RStrip(markdown) == "" then 0 else |RStrip(markdown)| + 1 + |HEADING|
  {
    var t := RStrip(markdown);
    var u := t + "\n";
    ScanTrimmed(markdown, t, u, 0);
    if t == "" {
      q := 0;
      WriteOnBlank(b, info, json);
      NothingAfter(u, 0);
    } else {
      q := |u| + |HEADING|;
      AppendedText(t, u, b, v, q);
      AppendScan(u, 0, q, b, info, json, v);
    }
  }

  lemma FenceEnds(v: string, p: nat, b: string, info: string, json: string)
    requires Whole(b, info, json) && At(v, p, b) && |v| == p + |b| + 1 && v[p + |b|] == '\n'
    ensures FindIter(v, p) == [Match(p, info, json, p + |b|)]
  {
    WholeMatches(v, p, b, info, json);
    ScanEndsWith(v, p, Match(p, info, json, p + |b|));
  }

  lemma WriteOnBlank(b: string, info: string, json: string)
    requires Whole(b, info, json)
    ensures FindIter(b + "\n", 0) == [Match(0, info, json, |b|)]
  {
    var v := b + "\n";
    assert v[0..|b|] == b;
    FenceEnds(v, 0, b, info, json);
  }

  lemma BlankDoesNotDangle()
    ensures !Dangling("\n")
  {
    NoBacktickNoHeader("\n", 0, 0);
    assert ScanEnd("\n", 0) == 0;
  }

  /** An unsettled body: the match of the dangling opener ends inside the fence just written. */
  lemma WriteDangles(markdown: string, accept: string -> bool, b: string, v: string) returns (d: Match, q: nat, e: nat)
    requires !SettledFor(markdown, accept) && v == Write(markdown, accept, b) && |b| >= 3 && b[..3] == FENCE
    ensures q == |RStrip(markdown)| + 1 + |HEADING| && e == q + 3 && 3 <= q <= |v|
    ensures v[q - 1] == '\n' == v[q - 2] && v[q - 3] == 'a'
    ensures At(v, q, b) && |v| == q + |b| + 1 && v[q + |b|] == '\n'
    ensures d.start + |d.info| + 4 <= q - 3 && d.end == e && d.body == v[d.start + |d.info| + 4..q - 1]
    ensures FindIter(v, 0) == FindIter(markdown, 0) + [d] + FindIter(v, e)
  {
    var t := RStrip(markdown);
    var u := t + "\n";
    q := |u| + |HEADING|;
    e := q + 3;
    BlankDoesNotDangle();
    HeadingHasNoBacktick();
    AppendedText(t, u, b, v, q);
    d := DanglingScan(u, 0, q, b, v, e);
    ScanTrimmed(markdown, t, u, 0);
  }

  // ----- what is read after the dangling match -----

  lemma {:induction false} FindIterMatches(s: string, p: nat, m: Match)
    requires m in FindIter(s, p)
    ensures MatchAt(s, m.start) == Some(m)
    decreases |s| - p
  {
    SearchIsLeftmost(s, p);
    FindIterUnfold(s, p);
    if m != Search(s, p).value {
      FindIterMatches(s, Search(s, p).value.end, m);
    }
  }

  lemma MatchSize(s: string, m: Match)
    requires MatchAt(s, m.start) == Some(m)
    ensures m.start + |m.body| + 8 <= m.end <= |s| && s[m.start] == '`' == s[m.end - 1]
  {
    FindIsFirst(s, CLOSER, HeaderEnd(s, m.start).value);
    assert s[m.start..m.start + 3][0] == s[m.start];
    assert s[m.end - 4..m.end][3] == s[m.end - 1];
  }

  /** What the scan finds after the dangling match lies inside the written text, past its info
      string, so its body is too short to be that text. */
  lemma ShortBodies(info: string, json: string, b: string, v: string, q: nat, e: nat, m: Match)
    requires Plain(info) && b == Fenced(info, json) && e == q + 3
    requires At(v, q, b) && |v| == q + |b| + 1 && v[q + |b|] == '\n'
    requires m in FindIter(v, e)
    ensures |m.body| < |json| && e + |info| <= m.start && m.end < |v|
  {
    FencedParts(info, json);
    FindIterMatches(v, e, m);
    MatchSize(v, m);
    if m.start < e + |info| {
      InfoIsCopied(info, json, b, v, q, e, m.start);
    }
  }

  lemma InfoIsCopied(info: string, json: string, b: string, v: string, q: nat, e: nat, i: nat)
    requires b == Fenced(info, json) && At(v, q, b) && e == q + 3 && e <= i < e + |info|
    ensures i < |v| && v[i] == info[i - e]
  {
    FencedParts(info, json);
    assert v[i] == v[q..q + |b|][i - q] == b[i - q] == b[3..3 + |info|][i - e];
  }

  lemma StripEndsAt(x: string)
    requires |x| >= 2 && IsSpace(x[|x| - 1]) && !IsSpace(x[|x| - 2])
    ensures Strip(x) != "" && Strip(x)[|Strip(x)| - 1] == x[|x| - 2]
  {
    var y := x[..|x| - 1];
    assert RStrip(x) == RStrip(y) == y;
    LStripKeepsEnd(y);
  }

  // ----- put-get -----

  lemma DumpedIsTrimmed(json: string)
    requires Dumped(json)
    ensures Strip(json) == json
  {
    StripTrimmed(json);
  }

  lemma ReadAfterSettledWrite(markdown: string, accept: string -> bool, b: string, info: string, json: string, v: string)
    requires Whole(b, info, json) && accept(info) && Dumped(json)
    requires SettledFor(markdown, accept) && v == Write(markdown, accept, b)
    ensures HasBlock(v, accept) && Read(v, accept) == Some(json)
  {
    DumpedIsTrimmed(json);
    var first := First(FindIter(markdown, 0), accept);
    if first.Some? {
      WriteSplices(markdown, accept, b, first.value);
      WriteReplaces(markdown, accept, b, info, json, v, first.value);
    } else {
      var q := WriteAppends(markdown, accept, b, info, json, v);
      FirstAppend(FindIter(markdown, 0), [Match(q, info, json, q + |b|)], accept);
    }
  }

  lemma DanglingBodyDiffers(v: string, q: nat, h: nat, json: string)
    requires h + 3 <= q <= |v| && v[q - 1] == '\n' == v[q - 2] && v[q - 3] == 'a' && Dumped(json)
    ensures Strip(v[h..q - 1]) != json
  {
    StripEndsAt(v[h..q - 1]);
  }

  lemma ReadAfterDanglingWrite(markdown: string, accept: string -> bool, b: string, info: string, json: string, v: string)
    requires Plain(info) && b == Fenced(info, json) && |b| >= 3 && b[..3] == FENCE && Dumped(json)
    requires !SettledFor(markdown, accept) && v == Write(markdown, accept, b)
    ensures Read(v, accept) != Some(json)
  {
    var d, q, e := WriteDangles(markdown, accept, b, v);
    FirstAppend(FindIter(markdown, 0) + [d], FindIter(v, e), accept);
    FirstAppend(FindIter(markdown, 0), [d], accept);
    if accept(d.info) {
      assert First([d], accept) == Some(d);
      DanglingBodyDiffers(v, q, d.start + |d.info| + 4, json);
    } else {
      RestReadsShort(info, json, b, v, q, e, accept);
    }
  }

  lemma RestReadsShort(info: string, json: string, b: string, v: string, q: nat, e: nat, accept: string -> bool)
    requires Plain(info) && b == Fenced(info, json) && e == q + 3
    requires At(v, q, b) && |v| == q + |b| + 1 && v[q + |b|] == '\n'
    ensures var first := First(FindIter(v, e), accept); first.Some? ==> |first.value.body| < |json|
  {
    var first := First(FindIter(v, e), accept);
    if first.Some? {
      ShortBodies(info, json, b, v, q, e, first.value);
    }
  }

  /** Put-get, for every body and every dumped mapping: what an upsert writes is what the next
      extract reads exactly when the body is settled. */
  lemma PutGet(markdown: string, json: string)
    requires Dumped(json)
    ensures Extract(Upsert(markdown, json)) == Some(json) <==> Settled(markdown)
  {
    InfoIsPlain();
    if Settled(markdown) {
      BlockIsWhole(json);
      InfoIsRecognised();
      ReadAfterSettledWrite(markdown, Recognised, Block(json), INFO, json, Upsert(markdown, json));
    } else {
      FencedParts(INFO, json);
      ReadAfterDanglingWrite(markdown, Recognised, Block(json), INFO, json, Upsert(markdown, json));
    }
  }

  // ----- frame -----

  /** An upsert on a settled body changes the scan in one place: the first recognised match is
      replaced, or one match is added after all the others. */
  lemma Frame(markdown: string, json: string)
    requires Dumped(json) && Settled(markdown)
    ensures var before := Groups(FindIter(markdown, 0));
      Groups(FindIter(Upsert(markdown, json), 0))
      == if HasBlock(markdown, Recognised) then ReplaceFirst(before, Recognised, (INFO, json))
         else before + [(INFO, json)]
  {
    BlockIsWhole(json);
    InfoIsRecognised();
    FrameFor(markdown, Recognised, Block(json), INFO, json, Upsert(markdown, json));
  }

  lemma FrameFor(markdown: string, accept: string -> bool, b: string, info: string, json: string, v: string)
    requires Whole(b, info, json) && accept(info)
    requires SettledFor(markdown, accept) && v == Write(markdown, accept, b)
    ensures var before := Groups(FindIter(markdown, 0));
      Groups(FindIter(v, 0))
      == if HasBlock(markdown, accept) then ReplaceFirst(before, accept, (info, json))
         else before + [(info, json)]
  {
    var first := First(FindIter(markdown, 0), accept);
    if first.Some? {
      WriteSplices(markdown, accept, b, first.value);
      WriteReplaces(markdown, accept, b, info, json, v, first.value);
    } else {
      var q := WriteAppends(markdown, accept, b, info, json, v);
      GroupsAppend(FindIter(markdown, 0), [Match(q, info, json, q + |b|)]);
    }
  }

  // ----- put-put -----

  lemma RewriteBlock(markdown: string, accept: string -> bool, b1: string, b2: string, info: string, json: string,
                     v: string, m: Match)
    requires Whole(b1, info, json) && accept(info) && First(FindIter(markdown, 0), accept) == Some(m)
    requires Spliced(markdown, m.start, m.end, b1, v)
    ensures Write(v, accept, b2) == markdown[..m.start] + b2 + markdown[m.end..]
  {
    WriteReplaces(markdown, accept, b1, info, json, v, m);
    WriteOver(v, accept, b2, Match(m.start, info, json, m.start + |b1|));
  }

  lemma WriteOver(v: string, accept: string -> bool, b: string, n: Match)
    requires First(FindIter(v, 0), accept) == Some(n) && n.end <= |v|
    ensures Write(v, accept, b) == v[..n.start] + b + v[n.end..]
  {
  }

  lemma RewriteTail(pre: string, b1: string, b2: string, v: string, accept: string -> bool, n: Match)
    requires v == pre + b1 + "\n" && First(FindIter(v, 0), accept) == Some(n)
    requires n.start == |pre| && n.end == |pre| + |b1|
    ensures Write(v, accept, b2) == pre + b2 + "\n"
  {
    assert v[..n.start] == pre && v[n.end..] == "\n";
  }

  lemma RewriteAppended(markdown: string, accept: string -> bool, b1: string, b2: string, info: string, json: string)
    requires Whole(b1, info, json) && accept(info) && SettledFor(markdown, accept) && !HasBlock(markdown, accept)
    ensures Write(Write(markdown, accept, b1), accept, b2) == Write(markdown, accept, b2)
  {
    var t, v := RStrip(markdown), Write(markdown, accept, b1);
    var q := WriteAppends(markdown, accept, b1, info, json, v);
    var n := Match(q, info, json, q + |b1|);
    FirstAppend(FindIter(markdown, 0), [n], accept);
    assert First([n], accept) == Some(n);
    var pre := if t == "" then "" else t + "\n" + HEADING;
    assert v == pre + b1 + "\n";
    assert Write(markdown, accept, b2) == pre + b2 + "\n";
    RewriteTail(pre, b1, b2, v, accept, n);
  }

  lemma RewriteSettled(markdown: string, accept: string -> bool, b1: string, b2: string, info: string, json: string)
    requires Whole(b1, info, json) && accept(info) && SettledFor(markdown, accept)
    ensures Write(Write(markdown, accept, b1), accept, b2) == Write(markdown, accept, b2)
  {
    if HasBlock(markdown, accept) {
      var m := First(FindIter(markdown, 0), accept).value;
      WriteSplices(markdown, accept, b1, m);
      RewriteBlock(markdown, accept, b1, b2, info, json, Write(markdown, accept, b1), m);
    } else {
      RewriteAppended(markdown, accept, b1, b2, info, json);
    }
  }

  /** Of two rendered blocks that end at the same place, the one that stands after a newline does
      not start later: the other would hold its opening as a closer. */
  lemma NoLaterStart(info: string, j1: string, j2: string, b1: string, b2: string, c: string, q: nat, r: nat)
    requires Plain(info) && Dumped(j2) && b1 == Fenced(info, j1) && b2 == Fenced(info, j2)
    requires At(c, q, b2) && At(c, r, b1) && q + |b2| == r + |b1|
    requires r > 0 && c[r - 1] == '\n'
    ensures r <= q
  {
    if r > q {
      FencedParts(info, j1);
      FencedParts(info, j2);
      FenceAfterNewline(c, r, b1);
      var k := r - 1 - q;
      OccursWithin(c, q, b2, k);
      NoCloserInside(info, j2, k);
    }
  }

  lemma BlocksAlign(info: string, j1: string, j2: string, b1: string, b2: string, c: string, q: nat, r: nat)
    requires Plain(info) && Dumped(j1) && Dumped(j2) && b1 == Fenced(info, j1) && b2 == Fenced(info, j2)
    requires At(c, q, b2) && At(c, r, b1) && q + |b2| == r + |b1|
    requires q > 0 && r > 0 && c[q - 1] == '\n' == c[r - 1]
    ensures q == r
  {
    NoLaterStart(info, j1, j2, b1, b2, c, q, r);
    NoLaterStart(info, j2, j1, b2, b1, c, r, q);
  }

  lemma OccursWithin(c: string, q: nat, b: string, i: nat)
    requires At(c, q, b) && At(c, q + i, CLOSER) && i + 4 <= |b|
    ensures At(b, i, CLOSER)
  {
    var k := q + i;
    forall j | i <= j < i + 4 ensures b[j] == c[q + j] {
      assert b[j] == c[q..q + |b|][j];
    }
    assert b[i..i + 4] == c[k..k + 4];
  }

  lemma Overlap(pre: string, y: string, z: string, w: string, r: nat)
    requires w == pre + (y + FENCE) + z + "\n" && r == |pre| + |y|
    requires |y| >= 2 && y[|y| - 1] == '\n' && y[|y| - 2] == '}'
    ensures r >= 2 && At(w, r, FENCE + z) && w[r - 1] == '\n' && w[r - 2] == '}' && |w| == r + |z| + 4
  {
    assert w == (pre + y) + (FENCE + z) + "\n";
    assert w[r..r + |FENCE + z|] == FENCE + z;
  }

  /** What a second write leaves when it lands on the dangling match of the first: the fence that
      closes the second block also opens what is left of the first. */
  lemma RewriteOverOpener(info: string, j1: string, j2: string, b1: string, b2: string,
                          pre: string, w: string, r: nat)
    requires Dumped(j2) && b1 == Fenced(info, j1) && b2 == Fenced(info, j2)
    requires w == pre + b2 + b1[3..] + "\n" && r == |pre| + |b2| - 3
    ensures r >= 2 && At(w, r, b1) && w[r - 1] == '\n' && w[r - 2] == '}' && |w| == r + |b1| + 1
  {
    var y := FENCE + info + "\n" + j2 + "\n";
    assert b2 == y + FENCE;
    assert b1 == FENCE + b1[3..];
    Overlap(pre, y, b1[3..], w, r);
  }

  lemma RewriteOpenerDiffers(info: string, j1: string, j2: string, b1: string, b2: string,
                             v: string, q: nat, pre: string, w: string, c: string)
    requires Plain(info) && Dumped(j1) && Dumped(j2) && b1 == Fenced(info, j1) && b2 == Fenced(info, j2)
    requires At(v, q, b1) && |v| == q + |b1| + 1 && v[q + |b1|] == '\n'
    requires w == pre + b2 + v[q + 3..]
    requires q >= 2 && At(c, q, b2) && |c| == q + |b2| + 1 && c[q - 1] == '\n' == c[q - 2]
    ensures w != c
  {
    FencedParts(info, j1);
    var r := |pre| + |b2| - 3;
    assert v[q + 3..] == b1[3..] + "\n" by {
      assert v[q + 3..] == v[q..q + |b1|][3..] + [v[q + |b1|]];
    }
    RewriteOverOpener(info, j1, j2, b1, b2, pre, w, r);
    if w == c {
      BlocksAlign(info, j1, j2, b1, b2, w, q, r);
    }
  }

  lemma RStripOneNewline(v: string)
    requires |v| >= 2 && v[|v| - 1] == '\n' && v[|v| - 2] == '`'
    ensures RStrip(v) == v[..|v| - 1]
  {
    assert RStrip(v) == RStrip(v[..|v| - 1]);
  }

  /** When the second write does not land on the dangling match it keeps the first one's text. */
  lemma RewriteRestLonger(info: string, j1: string, b1: string, b2: string, v: string, q: nat, e: nat,
                          accept: string -> bool)
    requires Plain(info) && b1 == Fenced(info, j1) && e == q + 3
    requires At(v, q, b1) && |v| == q + |b1| + 1 && v[q + |b1|] == '\n'
    requires First(FindIter(v, 0), accept) == First(FindIter(v, e), accept)
    ensures |Write(v, accept, b2)| > q + |b2| + 1
  {
    FencedParts(info, j1);
    var first := First(FindIter(v, e), accept);
    if first.Some? {
      ShortBodies(info, j1, b1, v, q, e, first.value);
    } else {
      assert v[|v| - 2] == v[q..q + |b1|][|b1| - 1];
      RStripOneNewline(v);
    }
  }

  lemma UnsettledWrite(markdown: string, accept: string -> bool, b: string, c: string, q: nat)
    requires !SettledFor(markdown, accept) && c == Write(markdown, accept, b)
    requires q == |RStrip(markdown)| + 1 + |HEADING|
    ensures q >= 2 && At(c, q, b) && |c| == q + |b| + 1 && c[q - 1] == '\n' == c[q - 2]
  {
    var t := RStrip(markdown);
    BlankDoesNotDangle();
    HeadingHasNoBacktick();
    AppendedText(t, t + "\n", b, c, q);
  }

  lemma RewriteUnsettled(markdown: string, accept: string -> bool, info: string, j1: string, j2: string,
                         b1: string, b2: string)
    requires Plain(info) && Dumped(j1) && Dumped(j2) && b1 == Fenced(info, j1) && b2 == Fenced(info, j2)
    requires !SettledFor(markdown, accept)
    ensures Write(Write(markdown, accept, b1), accept, b2) != Write(markdown, accept, b2)
  {
    FencedParts(info, j1);
    var v := Write(markdown, accept, b1);
    var d, q, e := WriteDangles(markdown, accept, b1, v);
    var w, c := Write(v, accept, b2), Write(markdown, accept, b2);
    FirstAppend(FindIter(markdown, 0) + [d], FindIter(v, e), accept);
    FirstAppend(FindIter(markdown, 0), [d], accept);
    UnsettledWrite(markdown, accept, b2, c, q);
    if accept(d.info) {
      assert First([d], accept) == Some(d);
      RewriteOpenerDiffers(info, j1, j2, b1, b2, v, q, v[..d.start], w, c);
    } else {
      RewriteRestLonger(info, j1, b1, b2, v, q, e, accept);
    }
  }

  /** Put-put, for every body and every two dumped mappings: the second upsert makes the first
      irrelevant exactly when the body is settled. With equal mappings this is idempotence. */
  lemma PutPut(markdown: string, j1: string, j2: string)
    requires Dumped(j1) && Dumped(j2)
    ensures Upsert(Upsert(markdown, j1), j2) == Upsert(markdown, j2) <==> Settled(markdown)
  {
    InfoIsPlain();
    if Settled(markdown) {
      BlockIsWhole(j1);
      InfoIsRecognised();
      RewriteSettled(markdown, Recognised, Block(j1), Block(j2), INFO, j1);
    } else {
      RewriteUnsettled(markdown, Recognised, INFO, j1, j2, Block(j1), Block(j2));
    }
  }

  /** A header takes four characters, its newline included. */
  lemma NoHeaderInShort(v: string)
    requires |v| < 4
    ensures !Dangling(v)
  {
  }

  /** The laws hold on every body shorter than three bare backticks. */
  lemma ShorterIsSettled(markdown: string)
    requires |markdown| < 3
    ensures Settled(markdown)
  {
    NoHeaderInShort(RStrip(markdown) + "\n");
  }

  /** And they fail on that one. */
  lemma BareBackticksAreUnsettled()
    ensures !Settled("```")
  {
    var u := "```\n";
    assert HeaderEnd(u, 0) == Some(4) by {
      assert u[0..3] == FENCE;
    }
    NoMatchInShort("```");
    NoMatchInShort(u);
    assert FindIter("```", 0) == [] && ScanEnd(u, 0) == 0;
    assert RStrip("```") == "```" && "```" + "\n" == u;
    assert OpenerFrom(u, 0);
  }

  /** A match takes at least eight characters. */
  lemma NoMatchInShort(s: string)
    requires |s| < 8
    ensures Search(s, 0) == None
  {
    SearchIsLeftmost(s, 0);
    if Search(s, 0).Some? {
      MatchSize(s, Search(s, 0).value);
    }
  }
}
