/** The fenced pr-delivery-metadata block of a pull-request body, seen as a lens over text:
    `Extract` reads the block, `Upsert` writes it, and both go through the same fence scan. */
module PrMetadata {
  import opened Text

  const FENCE := "```"
  const CLOSER := "\n```"
  const JSON := "json"
  const METADATA := "pr-delivery-metadata"
  const INFO := JSON + " " + METADATA
  const HEADING := "\n## Delivery Metadata\n\n"

  /** One match of the fence pattern: where it starts and ends, and its two named groups. */
  datatype Match = Match(start: nat, info: string, body: string, end: nat)

  // ----- the scan -----

  /** First index at or after `p` that holds a newline or a backtick: the end of `[^\n`]*`. */
  function InfoEnd(s: string, p: nat): (r: nat)
    requires p <= |s|
    ensures p <= r <= |s|
    decreases |s| - p
  {
    if p < |s| && s[p] != '\n' && s[p] != '`' then InfoEnd(s, p + 1) else p
  }

  /** When a fence header starts at `p`, the index just after its newline. */
  function HeaderEnd(s: string, p: nat): (r: Option<nat>)
    ensures r.Some? ==> p + 4 <= r.value <= |s|
  {
    if At(s, p, FENCE) then
      var q := InfoEnd(s, p + 3);
      if q < |s| && s[q] == '\n' then Some(q + 1) else None
    else None
  }

  /** The match of a header that starts at `p` and ends at `h`: its body is the shortest text
      that a closer follows. */
  function Close(s: string, p: nat, h: nat): (r: Option<Match>)
    requires p + 4 <= h <= |s|
    ensures r.Some? ==> r.value.start == p < r.value.end <= |s|
  {
    match Find(s, CLOSER, h)
    case None => None
    case Some(k) => Some(Match(p, s[p + 3..h - 1], s[h..k], k + 4))
  }

  /** The match of the pattern that starts at `p`. */
  function MatchAt(s: string, p: nat): (r: Option<Match>)
    ensures r.Some? ==> r.value.start == p < r.value.end <= |s|
  {
    match HeaderEnd(s, p)
    case None => None
    case Some(h) => Close(s, p, h)
  }

  /** The leftmost match that starts at or after `p`. */
  function Search(s: string, p: nat): (r: Option<Match>)
    ensures r.Some? ==> p <= r.value.start < r.value.end <= |s|
    decreases |s| - p
  {
    if p >= |s| then None
    else if MatchAt(s, p).Some? then MatchAt(s, p)
    else Search(s, p + 1)
  }

  /** `_FENCE_RE.finditer`, started at index `p`. */
  function FindIter(s: string, p: nat): (r: seq<Match>)
    ensures forall m | m in r :: p <= m.start < m.end <= |s|
    decreases |s| - p
  {
    match Search(s, p)
    case None => []
    case Some(m) => [m] + FindIter(s, m.end)
  }

  lemma {:induction false} InfoEndIsFirst(s: string, p: nat)
    requires p <= |s|
    ensures var r := InfoEnd(s, p);
      && (forall i | p <= i < r :: s[i] != '\n' && s[i] != '`')
      && (r < |s| ==> s[r] == '\n' || s[r] == '`')
    decreases |s| - p
  {
    if p < |s| && s[p] != '\n' && s[p] != '`' {
      InfoEndIsFirst(s, p + 1);
    }
  }

  /** The scan finds the leftmost match, or nothing when no place has one. */
  lemma {:induction false} SearchIsLeftmost(s: string, p: nat)
    ensures Search(s, p).Some? ==>
              && MatchAt(s, Search(s, p).value.start) == Search(s, p)
              && forall x | p <= x < Search(s, p).value.start :: MatchAt(s, x) == None
    ensures Search(s, p).None? ==> forall x | p <= x < |s| :: MatchAt(s, x) == None
    decreases |s| - p
  {
    if p < |s| && MatchAt(s, p).None? {
      var next, found := p + 1, Search(s, p);
      SearchIsLeftmost(s, next);
      NoneFrom(s, p, next, if found.Some? then found.value.start else |s|);
    }
  }

  lemma NoneFrom(s: string, p: nat, next: nat, q: nat)
    requires next == p + 1 && MatchAt(s, p) == None && forall x | next <= x < q :: MatchAt(s, x) == None
    ensures forall x | p <= x < q :: MatchAt(s, x) == None
  {
  }

  // ----- recognising the block -----

  function LowerAscii(s: string): string {
    if s == "" then ""
    else [if 'A' <= s[0] <= 'Z' then s[0] + ' ' else s[0]] + LowerAscii(s[1..])
  }

  /** `str.split()`: the maximal runs of non-space characters; `word` is the run being read. */
  function Split(s: string, word: string := ""): seq<string>
    decreases |s|
  {
    if s == "" then (if word == "" then [] else [word])
    else if !IsSpace(s[0]) then Split(s[1..], word + [s[0]])
    else (if word == "" then [] else [word]) + Split(s[1..])
  }

  /** `" ".join(words)`. */
  function Join(words: seq<string>): string {
    if words == [] then ""
    else if |words| == 1 then words[0]
    else words[0] + " " + Join(words[1..])
  }

  function Words(info: string): seq<string> {
    Split(LowerAscii(Strip(info)))
  }

  predicate Marks(normal: string, tokens: seq<string>, a: string, b: string) {
    normal == b || (a in tokens && b in tokens)
  }

  /** The info strings that mark a metadata block, read off the normalised text as the code does. */
  predicate Recognised(info: string) {
    var normal := Join(Words(info));
    Marks(normal, Split(normal), JSON, METADATA)
  }

  /** The first match whose info string `accept` takes. */
  function First(ms: seq<Match>, accept: string -> bool): (r: Option<Match>)
    ensures r.Some? ==> r.value in ms && accept(r.value.info)
    ensures r.None? ==> forall m | m in ms :: !accept(m.info)
  {
    if ms == [] then None
    else if accept(ms[0].info) then Some(ms[0])
    else First(ms[1..], accept)
  }

  // ----- the lens -----

  /** `json.dumps` of a mapping: it opens and closes with braces, and since strings are escaped
      no line of it starts with a backtick. */
  ghost predicate Dumped(json: string) {
    && |json| >= 2 && json[0] == '{' && json[|json| - 1] == '}'
    && forall k :: !At(json, k, CLOSER)
  }

  function Fenced(info: string, body: string): string {
    FENCE + info + "\n" + body + CLOSER
  }

  function Block(json: string): string {
    Fenced(INFO, json)
  }

  /** The body of the first accepted match. */
  function Read(markdown: string, accept: string -> bool): Option<string> {
    match First(FindIter(markdown, 0), accept)
    case None => None
    case Some(m) => Some(Strip(m.body))
  }

  /** Put `block` in the place of the first accepted match, or after the trimmed body. */
  function Write(markdown: string, accept: string -> bool, block: string): string {
    match First(FindIter(markdown, 0), accept)
    case Some(m) => markdown[..m.start] + block + markdown[m.end..]
    case None =>
      var trimmed := RStrip(markdown);
      if trimmed == "" then block + "\n"
      else trimmed + "\n" + HEADING + block + "\n"
  }

  function Extract(markdown: string): Option<string> {
    Read(markdown, Recognised)
  }

  function Upsert(markdown: string, json: string): string {
    Write(markdown, Recognised, Block(json))
  }

  // ----- when a body is settled -----

  function ScanEnd(s: string, p: nat): nat
    decreases |s| - p
  {
    match Search(s, p)
    case None => p
    case Some(m) => ScanEnd(s, m.end)
  }

  predicate OpenerFrom(s: string, p: nat) {
    exists x :: p <= x < |s| && HeaderEnd(s, x).Some?
  }

  /** After the last match of the scan a fence header still opens, and nothing closes it. */
  predicate Dangling(s: string) {
    OpenerFrom(s, ScanEnd(s, 0))
  }

  predicate HasBlock(markdown: string, accept: string -> bool) {
    First(FindIter(markdown, 0), accept).Some?
  }

  /** The bodies on which the lens laws hold. The newline after the trimmed body is the one an
      append adds, so a body that ends in a bare run of three backticks is not settled. */
  predicate SettledFor(markdown: string, accept: string -> bool) {
    HasBlock(markdown, accept) || !Dangling(RStrip(markdown) + "\n")
  }

  predicate Settled(markdown: string) {
    SettledFor(markdown, Recognised)
  }

  // ----- what is recognised -----

  ghost predicate IsWord(w: string) {
    w != "" && forall i | 0 <= i < |w| :: !IsSpace(w[i])
  }

  lemma {:induction false} SplitYieldsWords(s: string, word: string)
    requires word == "" || IsWord(word)
    ensures forall w | w in Split(s, word) :: IsWord(w)
    decreases |s|
  {
    if s != "" {
      if IsSpace(s[0]) {
        SplitYieldsWords(s[1..], "");
      } else {
        SplitYieldsWords(s[1..], word + [s[0]]);
      }
    }
  }

  lemma {:induction false} SplitWord(w: string, rest: string, word: string)
    requires forall i | 0 <= i < |w| :: !IsSpace(w[i])
    ensures Split(w + rest, word) == Split(rest, word + w)
    decreases |w|
  {
    if w == "" {
      assert w + rest == rest && word + w == word;
    } else {
      assert (w + rest)[1..] == w[1..] + rest;
      SplitWord(w[1..], rest, word + [w[0]]);
      assert word + [w[0]] + w[1..] == word + w;
    }
  }

  lemma {:induction false} SplitOfJoin(words: seq<string>)
    requires forall w | w in words :: IsWord(w)
    ensures Split(Join(words)) == words
  {
    if words != [] {
      var w := words[0];
      assert w in words && IsWord(w);
      var rest := if |words| == 1 then "" else " " + Join(words[1..]);
      assert Join(words) == w + rest;
      SplitWord(w, rest, "");
      assert "" + w == w;
      if |words| > 1 {
        assert rest[1..] == Join(words[1..]);
        SplitOfJoin(words[1..]);
        assert words == [w] + words[1..];
      } else {
        assert words == [w];
      }
    }
  }

  lemma JoinIsOneWord(words: seq<string>, w: string)
    requires IsWord(w) && forall v | v in words :: IsWord(v)
    ensures Join(words) == w <==> words == [w]
  {
    SplitOfJoin(words);
    SplitOfJoin([w]);
  }

  lemma {:induction false} LowerOfLower(s: string)
    requires forall i | 0 <= i < |s| :: !('A' <= s[i] <= 'Z')
    ensures LowerAscii(s) == s
  {
    if s != "" {
      LowerOfLower(s[1..]);
    }
  }

  lemma RecognitionReadsWords(words: seq<string>, a: string, b: string)
    requires IsWord(b) && forall v | v in words :: IsWord(v)
    ensures Marks(Join(words), Split(Join(words)), a, b) <==> words == [b] || (a in words && b in words)
  {
    SplitOfJoin(words);
    JoinIsOneWord(words, b);
  }

  lemma MetadataIsWord()
    ensures IsWord(METADATA)
  {
  }

  /** Recognition depends on the words of the info string alone: the single word, or both words. */
  lemma RecognisedMeans(info: string)
    ensures Recognised(info) <==>
            Words(info) == [METADATA] || (JSON in Words(info) && METADATA in Words(info))
  {
    MetadataIsWord();
    SplitYieldsWords(LowerAscii(Strip(info)), "");
    RecognitionReadsWords(Words(info), JSON, METADATA);
  }

  lemma WordsOfInfo(a: string, b: string)
    requires IsWord(a) && IsWord(b)
    ensures Split(a + " " + b) == [a, b] && Strip(a + " " + b) == a + " " + b
  {
    SplitWord(a, " " + b, "");
    assert a + " " + b == a + (" " + b) && "" + a == a;
    assert (" " + b)[1..] == b && b + "" == b && "" + b == b;
    SplitWord(b, "", "");
    StripTrimmed(a + " " + b);
  }

  lemma InfoIsRecognised()
    ensures Recognised(INFO)
  {
    MetadataIsWord();
    WordsOfInfo(JSON, METADATA);
    LowerOfLower(INFO);
    assert Words(INFO) == [JSON, METADATA];
    RecognisedMeans(INFO);
  }
}
