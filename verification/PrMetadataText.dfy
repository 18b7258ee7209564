/** What the metadata operations do to the text of a body, character for character. */
module PrMetadataText {
  import opened Text
  import opened PrMetadata
  import Sequences

  // ----- the pattern -----

  predicate InfoLine(info: string) {
    forall i | 0 <= i < |info| :: info[i] != '\n' && info[i] != '`'
  }

  /** A newline and three backticks stand at `k`. */
  ghost predicate Closes(s: string, k: nat) {
    k + 4 <= |s| && s[k..k + 4] == "\n```"
  }

  /** A stretch of the text that the pattern describes: three backticks, a line without backticks,
      and a body up to the first newline that three backticks follow. */
  ghost predicate IsFence(s: string, m: Match) {
    var h := m.start + 4 + |m.info|;
    && m.end == h + |m.body| + 4 && m.end <= |s|
    && s[m.start..m.end] == "```" + m.info + "\n" + m.body + "\n```"
    && InfoLine(m.info)
    && forall k | h <= k < h + |m.body| :: !Closes(s, k)
  }

  lemma Pair(a: string, b: string, x: string, y: string)
    requires |a| == |x|
    ensures a + b == x + y <==> a == x && b == y
  {
    if a + b == x + y {
      assert a == (a + b)[..|a|] && b == (a + b)[|a|..];
      assert x == (x + y)[..|x|] && y == (x + y)[|x|..];
    }
  }

  lemma Cut(s: string, p: nat, i: nat, q: nat)
    requires p <= i <= q <= |s|
    ensures s[p..q] == s[p..i] + s[i..q]
  {
  }

  /** Five stretches of a text, one after the other. */
  lemma FiveSlices(s: string, a: string, b: string, c: string, d: string, e: string,
                   p: nat, i: nat, j: nat, k: nat, l: nat, q: nat)
    requires i == p + |a| && j == i + |b| && k == j + |c| && l == k + |d| && q == l + |e| <= |s|
    ensures s[p..q] == a + b + c + d + e <==>
            s[p..i] == a && s[i..j] == b && s[j..k] == c && s[k..l] == d && s[l..q] == e
  {
    Cut(s, p, l, q);
    Cut(s, p, k, l);
    Cut(s, p, j, k);
    Cut(s, p, i, j);
    Pair(s[p..l], s[l..q], a + b + c + d, e);
    Pair(s[p..k], s[k..l], a + b + c, d);
    Pair(s[p..j], s[j..k], a + b, c);
    Pair(s[p..i], s[i..j], a, b);
  }

  lemma FenceSlices(s: string, m: Match, h: nat, k: nat)
    requires h == m.start + 4 + |m.info| && k == h + |m.body| && m.end == k + 4 <= |s|
    ensures s[m.start..m.end] == "```" + m.info + "\n" + m.body + "\n```" <==>
            && s[m.start..m.start + 3] == "```" && s[m.start + 3..h - 1] == m.info && s[h - 1..h] == "\n"
            && s[h..k] == m.body && s[k..m.end] == "\n```"
  {
    FiveSlices(s, "```", m.info, "\n", m.body, "\n```", m.start, m.start + 3, h - 1, h, k, m.end);
  }

  lemma HeaderMeans(s: string, p: nat, h: nat)
    ensures HeaderEnd(s, p) == Some(h) <==>
            p + 4 <= h <= |s| && s[p..p + 3] == "```" && s[h - 1..h] == "\n" && InfoLine(s[p + 3..h - 1])
  {
    if p + 3 <= |s| {
      InfoEndIsFirst(s, p + 3);
    }
    if p + 4 <= h <= |s| {
      assert s[h - 1..h] == [s[h - 1]];
      var line, from := s[p + 3..h - 1], p + 3;
      assert forall i | 0 <= i < |line| :: line[i] == s[from + i];
      if InfoLine(line) {
        forall i | from <= i < h - 1 ensures s[i] != '\n' && s[i] != '`' {
          assert s[i] == line[i - from];
        }
      }
    }
  }

  lemma FindMeans(s: string, h: nat, k: nat)
    ensures Find(s, CLOSER, h) == Some(k) <==>
            h <= k && Closes(s, k) && forall j | h <= j < k :: !Closes(s, j)
  {
    FindIsFirst(s, CLOSER, h);
    if Find(s, CLOSER, h) == Some(k) {
      forall j | h <= j < k ensures !Closes(s, j) {
        assert !At(s, j, CLOSER);
      }
    }
    if h <= k && Closes(s, k) && forall j | h <= j < k :: !Closes(s, j) {
      assert At(s, k, CLOSER);
      var f := Find(s, CLOSER, h).value;
      assert At(s, f, CLOSER) && Closes(s, f);
    }
  }

  lemma CloseMeans(s: string, m: Match, h: nat, k: nat)
    requires h == m.start + 4 + |m.info| <= |s| && k == h + |m.body|
    ensures Close(s, m.start, h) == Some(m) <==>
            && Find(s, CLOSER, h) == Some(k) && m.end == k + 4
            && m.info == s[m.start + 3..h - 1] && m.body == s[h..k]
  {
  }

  lemma MatchIsFence(s: string, m: Match)
    requires MatchAt(s, m.start) == Some(m)
    ensures IsFence(s, m)
  {
    var h := HeaderEnd(s, m.start).value;
    HeaderMeans(s, m.start, h);
    var k := Find(s, CLOSER, h).value;
    FindMeans(s, h, k);
    FenceSlices(s, m, h, k);
  }

  lemma FenceIsMatch(s: string, m: Match)
    requires IsFence(s, m)
    ensures MatchAt(s, m.start) == Some(m)
  {
    var h := m.start + 4 + |m.info|;
    var k := h + |m.body|;
    FenceSlices(s, m, h, k);
    HeaderMeans(s, m.start, h);
    FindMeans(s, h, k);
    CloseMeans(s, m, h, k);
  }

  /** The pattern matches at a place exactly the stretch it describes there; there is at most one. */
  lemma MatchAtMeans(s: string, m: Match)
    ensures MatchAt(s, m.start) == Some(m) <==> IsFence(s, m)
  {
    if MatchAt(s, m.start) == Some(m) {
      MatchIsFence(s, m);
    }
    if IsFence(s, m) {
      FenceIsMatch(s, m);
    }
  }

  // ----- the scan -----

  /** No fence opens from `p` up to `q`. */
  ghost predicate NoFence(s: string, p: nat, q: nat) {
    forall m: Match | p <= m.start < q :: !IsFence(s, m)
  }

  /** The fences of a text from `p` on: each is the first after the one before it has ended. */
  ghost predicate AreFences(s: string, p: nat, ms: seq<Match>)
    decreases |ms|
  {
    if ms == [] then NoFence(s, p, |s|)
    else p <= ms[0].start && IsFence(s, ms[0]) && NoFence(s, p, ms[0].start) && AreFences(s, ms[0].end, ms[1..])
  }

  lemma NoFenceMeans(s: string, p: nat, q: nat)
    requires q <= |s|
    ensures NoFence(s, p, q) <==> forall x | p <= x < q :: MatchAt(s, x) == None
  {
    if NoFence(s, p, q) {
      forall x | p <= x < q ensures MatchAt(s, x) == None {
        if MatchAt(s, x).Some? {
          MatchIsFence(s, MatchAt(s, x).value);
        }
      }
    }
    if forall x | p <= x < q :: MatchAt(s, x) == None {
      forall m: Match | p <= m.start < q ensures !IsFence(s, m) {
        if IsFence(s, m) {
          FenceIsMatch(s, m);
        }
      }
    }
  }

  lemma SearchMeans(s: string, p: nat)
    ensures Search(s, p).None? ==> NoFence(s, p, |s|)
    ensures Search(s, p).Some? ==>
              var m := Search(s, p).value; p <= m.start && IsFence(s, m) && NoFence(s, p, m.start)
  {
    SearchIsLeftmost(s, p);
    if Search(s, p).None? {
      NoFenceMeans(s, p, |s|);
    } else {
      var m := Search(s, p).value;
      MatchIsFence(s, m);
      NoFenceMeans(s, p, m.start);
    }
  }

  lemma {:induction false} ScanIsFences(s: string, p: nat)
    ensures AreFences(s, p, FindIter(s, p))
    decreases |s| - p
  {
    SearchMeans(s, p);
    if Search(s, p).Some? {
      var m := Search(s, p).value;
      ScanIsFences(s, m.end);
      Sequences.HeadOf(m, FindIter(s, m.end));
    }
  }

  lemma SameFirst(s: string, p: nat, m: Match, n: Match)
    requires p <= m.start && IsFence(s, m) && NoFence(s, p, m.start)
    requires p <= n.start && IsFence(s, n) && NoFence(s, p, n.start)
    ensures m == n
  {
    assert m.start <= n.start <= m.start;
    FenceIsMatch(s, m);
    FenceIsMatch(s, n);
  }

  lemma {:induction false} FencesAreUnique(s: string, p: nat, ms: seq<Match>, ns: seq<Match>)
    requires AreFences(s, p, ms) && AreFences(s, p, ns)
    ensures ms == ns
    decreases |ms|
  {
    if ms != [] && ns != [] {
      SameFirst(s, p, ms[0], ns[0]);
      FencesAreUnique(s, ms[0].end, ms[1..], ns[1..]);
      assert ms == [ms[0]] + ms[1..] && ns == [ns[0]] + ns[1..];
    }
  }

  /** The scan finds the fences of the text and nothing else. */
  lemma ScanMeans(s: string, ms: seq<Match>)
    ensures FindIter(s, 0) == ms <==> AreFences(s, 0, ms)
  {
    ScanIsFences(s, 0);
    if AreFences(s, 0, ms) {
      FencesAreUnique(s, 0, ms, FindIter(s, 0));
    }
  }

  // ----- recognition -----

  predicate AllSpace(s: string) {
    forall i | 0 <= i < |s| :: IsSpace(s[i])
  }

  /** Words with gaps before, between and after them. */
  ghost function Spaced(gaps: seq<string>, words: seq<string>): string
    requires |gaps| == |words| + 1
  {
    if words == [] then gaps[0] else gaps[0] + words[0] + Spaced(gaps[1..], words[1..])
  }

  ghost predicate AreGaps(gaps: seq<string>) {
    && (forall i | 0 <= i < |gaps| :: AllSpace(gaps[i]))
    && (forall i | 0 < i < |gaps| - 1 :: gaps[i] != "")
  }

  ghost predicate AreWords(words: seq<string>) {
    forall i | 0 <= i < |words| :: IsWord(words[i])
  }

  lemma {:induction false} LowerMeans(s: string)
    ensures |LowerAscii(s)| == |s|
    ensures forall i | 0 <= i < |s| ::
      LowerAscii(s)[i] as int == if 65 <= s[i] as int <= 90 then s[i] as int + 32 else s[i] as int
  {
    if s != "" {
      LowerMeans(s[1..]);
    }
  }

  lemma {:induction false} LowerOfSum(a: string, b: string)
    ensures LowerAscii(a + b) == LowerAscii(a) + LowerAscii(b)
  {
    if a == "" {
      assert a + b == b;
    } else {
      Sequences.SumTail(a, b);
      LowerOfSum(a[1..], b);
    }
  }

  lemma {:induction false} SplitGap(gap: string, rest: string)
    requires AllSpace(gap)
    ensures Split(gap + rest, "") == Split(rest, "")
    decreases |gap|
  {
    if gap == "" {
      assert gap + rest == rest;
    } else {
      Sequences.SumTail(gap, rest);
      SplitGap(gap[1..], rest);
      assert [] + Split(rest, "") == Split(rest, "");
    }
  }

  lemma SplitEnds(gap: string, word: string)
    requires AllSpace(gap)
    ensures Split(gap, word) == if word == "" then [] else [word]
  {
    if gap != "" {
      SplitGap(gap[1..], "");
      assert gap[1..] + "" == gap[1..];
    }
  }

  lemma {:induction false} SplitUpTo(s: string, gap: string, word: string)
    requires AllSpace(gap)
    ensures Split(s + gap, word) == Split(s, word)
    decreases |s|
  {
    if s == "" {
      assert s + gap == gap;
      SplitEnds(gap, word);
    } else {
      Sequences.SumTail(s, gap);
      if IsSpace(s[0]) {
        SplitUpTo(s[1..], gap, "");
      } else {
        SplitUpTo(s[1..], gap, word + [s[0]]);
      }
    }
  }

  lemma LowerGap(gap: string)
    requires AllSpace(gap)
    ensures LowerAscii(gap) == gap
  {
    LowerMeans(gap);
    forall i | 0 <= i < |gap| ensures LowerAscii(gap)[i] == gap[i] {
      assert IsSpace(gap[i]);
    }
  }

  lemma LowerWord(w: string)
    requires IsWord(w)
    ensures IsWord(LowerAscii(w))
  {
    LowerMeans(w);
    forall i | 0 <= i < |w| ensures !IsSpace(LowerAscii(w)[i]) {
      assert !IsSpace(w[i]);
    }
  }

  ghost function Lowered(words: seq<string>): (r: seq<string>)
    ensures |r| == |words| && forall i | 0 <= i < |r| :: r[i] == LowerAscii(words[i])
  {
    seq(|words|, i requires 0 <= i < |words| => LowerAscii(words[i]))
  }

  lemma {:induction false} SplitSpaced(gaps: seq<string>, words: seq<string>)
    requires |gaps| == |words| + 1 && AreGaps(gaps) && AreWords(words)
    ensures Split(LowerAscii(Spaced(gaps, words)), "") == Lowered(words)
    decreases |words|
  {
    if words == [] {
      LowerGap(gaps[0]);
      SplitEnds(gaps[0], "");
    } else {
      var gap, word, gaps', words' := gaps[0], words[0], gaps[1..], words[1..];
      var rest := LowerAscii(Spaced(gaps', words'));
      SplitSpaced(gaps', words');
      LowerWord(word);
      LowerOfSum(gap + word, Spaced(gaps', words'));
      LowerOfSum(gap, word);
      LowerGap(gap);
      SplitFirst(gap, LowerAscii(word), rest);
      AfterWord(gaps', words', LowerAscii(word));
      assert Lowered(words) == [LowerAscii(word)] + Lowered(words');
    }
  }

  lemma SplitFirst(gap: string, w: string, rest: string)
    requires AllSpace(gap) && IsWord(w)
    ensures Split(gap + w + rest, "") == Split(rest, w)
  {
    Sequences.Assoc(gap, w, rest);
    SplitGap(gap, w + rest);
    SplitWord(w, rest, "");
    Sequences.SumNone(w);
  }

  lemma AfterWord(gaps: seq<string>, words: seq<string>, w: string)
    requires |gaps| == |words| + 1 && AllSpace(gaps[0]) && (words != [] ==> gaps[0] != "") && w != ""
    ensures Split(LowerAscii(Spaced(gaps, words)), w) == [w] + Split(LowerAscii(Spaced(gaps, words)), "")
  {
    var t := Spaced(gaps, words);
    LowerMeans(t);
    if gaps[0] != "" {
      assert t[0] == gaps[0][0];
      LowerGap(gaps[0]);
      LowerMeans(gaps[0]);
      assert LowerAscii(t)[0] == t[0];
      Sequences.SumNone(Split(LowerAscii(t)[1..], ""));
    } else {
      assert t == "";
      Sequences.SumNone([w]);
    }
  }

  /** `strip` cuts blanks at both ends and nothing else. */
  lemma StripParts(s: string) returns (a: string, b: string)
    ensures s == a + Strip(s) + b && AllSpace(a) && AllSpace(b)
  {
    var t := RStrip(s);
    var n := |t| - |LStrip(t)|;
    a, b := t[..n], s[|t|..];
    LStripCuts(t);
    Rejoin(t, n);
    Rejoin(s, |t|);
  }

  lemma Rejoin(s: string, n: nat)
    requires n <= |s|
    ensures s == s[..n] + s[n..]
  {
  }

  lemma {:induction false} LStripCuts(t: string)
    ensures forall i | 0 <= i < |t| - |LStrip(t)| :: IsSpace(t[i])
  {
    if t != "" && IsSpace(t[0]) {
      LStripCuts(t[1..]);
      assert forall i | 1 <= i < |t| :: t[i] == t[1..][i - 1];
    }
  }

  lemma StripKeepsWords(s: string)
    ensures Split(LowerAscii(Strip(s)), "") == Split(LowerAscii(s), "")
  {
    var a, b := StripParts(s);
    var t := Strip(s);
    LowerGap(a);
    LowerGap(b);
    LowerOfSum(a + t, b);
    LowerOfSum(a, t);
    Sequences.Assoc(a, LowerAscii(t), b);
    SplitGap(a, LowerAscii(t) + b);
    SplitUpTo(LowerAscii(t), b, "");
  }

  /** An info string, seen as words with gaps around them, is recognised exactly when its words are
      "pr-delivery-metadata" alone or include it and "json", in any order and in capitals or not. */
  lemma RecognisedWords(gaps: seq<string>, words: seq<string>)
    requires |gaps| == |words| + 1 && AreGaps(gaps) && AreWords(words)
    ensures Recognised(Spaced(gaps, words)) <==>
            var lowered := Lowered(words);
            lowered == ["pr-delivery-metadata"] || ("json" in lowered && "pr-delivery-metadata" in lowered)
  {
    RecognisedMeans(Spaced(gaps, words));
    StripKeepsWords(Spaced(gaps, words));
    SplitSpaced(gaps, words);
  }

  // ----- reading and writing -----

  /** The first recognised fence of a text. */
  ghost predicate FirstBlock(markdown: string, ms: seq<Match>, i: nat) {
    && AreFences(markdown, 0, ms) && i < |ms| && Recognised(ms[i].info)
    && forall j | 0 <= j < i :: !Recognised(ms[j].info)
  }

  ghost predicate NoBlock(markdown: string, ms: seq<Match>) {
    AreFences(markdown, 0, ms) && forall j | 0 <= j < |ms| :: !Recognised(ms[j].info)
  }

  lemma {:induction false} FirstIs(ms: seq<Match>, accept: string -> bool, i: nat)
    requires i < |ms| && accept(ms[i].info) && forall j | 0 <= j < i :: !accept(ms[j].info)
    ensures First(ms, accept) == Some(ms[i])
    decreases |ms|
  {
    if i > 0 {
      FirstIs(ms[1..], accept, i - 1);
    }
  }

  lemma FirstIsNone(ms: seq<Match>, accept: string -> bool)
    requires forall j | 0 <= j < |ms| :: !accept(ms[j].info)
    ensures First(ms, accept) == None
  {
  }

  /** The text of a rendered block. */
  lemma BlockText(json: string)
    ensures Block(json) == "```json pr-delivery-metadata\n" + json + "\n```"
  {
    assert FENCE + INFO + "\n" == "```json pr-delivery-metadata\n";
  }

  /** With a recognised block, an upsert keeps every character before the first one and after it and
      puts the new block between them; and extracting reads the body of the first one, stripped. */
  lemma UpsertReplaces(markdown: string, json: string, ms: seq<Match>, i: nat)
    requires FirstBlock(markdown, ms, i)
    ensures ms[i].start <= ms[i].end <= |markdown|
    ensures Upsert(markdown, json)
         == markdown[..ms[i].start] + ("```json pr-delivery-metadata\n" + json + "\n```") + markdown[ms[i].end..]
    ensures Extract(markdown) == Some(Strip(ms[i].body))
  {
    ScanMeans(markdown, ms);
    FirstIs(ms, Recognised, i);
    BlockText(json);
  }

  lemma {:induction false} RStripOf(t: string, gap: string)
    requires AllSpace(gap) && (t != "" ==> !IsSpace(t[|t| - 1]))
    ensures RStrip(t + gap) == t
    decreases |gap|
  {
    if gap == "" {
      assert t + gap == t;
    } else {
      assert (t + gap)[..|t + gap| - 1] == t + gap[..|gap| - 1];
      RStripOf(t, gap[..|gap| - 1]);
    }
  }

  /** Without one, an upsert keeps the text up to its last character that is not blank, and adds a
      heading and the block; to a blank body it adds the block alone. Extracting finds nothing. */
  lemma UpsertAppends(t: string, gap: string, json: string, ms: seq<Match>)
    requires NoBlock(t + gap, ms) && AllSpace(gap) && (t != "" ==> !IsSpace(t[|t| - 1]))
    ensures Upsert(t + gap, json)
         == (if t == "" then "" else t + "\n\n## Delivery Metadata\n\n")
            + ("```json pr-delivery-metadata\n" + json + "\n```") + "\n"
    ensures Extract(t + gap) == None
  {
    ScanMeans(t + gap, ms);
    FirstIsNone(ms, Recognised);
    RStripOf(t, gap);
    BlockText(json);
    HeadingText(t);
  }

  lemma HeadingText(t: string)
    ensures t + "\n" + HEADING == t + "\n\n## Delivery Metadata\n\n"
  {
    Sequences.Assoc(t, "\n", HEADING);
    assert "\n" + HEADING == "\n\n## Delivery Metadata\n\n";
  }
}
