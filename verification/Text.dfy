/** Python string operations the modelled code uses, on sequences of characters. */
module Text {

  datatype Option<+T> = None | Some(value: T) {
    function GetOr(default: T): T {
      if Some? then value else default
    }
  }

  /** The characters `str.isspace` accepts; `strip`, `rstrip` and `split` cut at these. */
  predicate IsSpace(c: char) {
    || '\t' <= c <= '\r'
    || '\U{1c}' <= c <= ' '
    || c == '\U{85}' || c == '\U{a0}' || c == '\U{1680}'
    || '\U{2000}' <= c <= '\U{200a}'
    || c == '\U{2028}' || c == '\U{2029}' || c == '\U{202f}' || c == '\U{205f}' || c == '\U{3000}'
  }

  function LStrip(s: string): (r: string)
    ensures |r| <= |s| && r == s[|s| - |r|..]
    ensures r != "" ==> !IsSpace(r[0])
  {
    if s != "" && IsSpace(s[0]) then LStrip(s[1..]) else s
  }

  function RStrip(s: string): (r: string)
    ensures |r| <= |s| && r == s[..|r|]
    ensures r != "" ==> !IsSpace(r[|r| - 1])
    ensures forall i | |r| <= i < |s| :: IsSpace(s[i])
  {
    if s != "" && IsSpace(s[|s| - 1]) then RStrip(s[..|s| - 1]) else s
  }

  function Strip(s: string): (r: string)
    ensures |r| <= |s|
    ensures r != "" ==> !IsSpace(r[0]) && !IsSpace(r[|r| - 1])
  {
    LStrip(RStrip(s))
  }

  lemma {:induction false} LStripKeepsEnd(s: string)
    requires s != "" && !IsSpace(s[|s| - 1])
    ensures LStrip(s) != "" && LStrip(s)[|LStrip(s)| - 1] == s[|s| - 1]
  {
    if IsSpace(s[0]) {
      LStripKeepsEnd(s[1..]);
    }
  }

  /** A string is trimmed when `strip` leaves it alone. */
  predicate Trimmed(s: string) {
    s != "" ==> !IsSpace(s[0]) && !IsSpace(s[|s| - 1])
  }

  lemma StripTrimmed(s: string)
    requires Trimmed(s)
    ensures Strip(s) == s
  {
  }

  predicate StartsWith(s: string, prefix: string) {
    prefix <= s
  }

  predicate EndsWith(s: string, suffix: string) {
    |suffix| <= |s| && s[|s| - |suffix|..] == suffix
  }

  function RemovePrefix(s: string, prefix: string): string {
    if StartsWith(s, prefix) then s[|prefix|..] else s
  }

  /** `w` occurs in `s` at index `p`. */
  predicate At(s: string, p: nat, w: string) {
    p + |w| <= |s| && s[p..p + |w|] == w
  }

  /** `s.find(w, p)`. */
  function Find(s: string, w: string, p: nat): (r: Option<nat>)
    ensures r.Some? ==> p <= r.value && r.value + |w| <= |s|
    decreases |s| - p
  {
    if p + |w| > |s| then None
    else if At(s, p, w) then Some(p)
    else Find(s, w, p + 1)
  }

  /** `find` returns the first occurrence, or nothing when there is none. */
  lemma {:induction false} FindIsFirst(s: string, w: string, p: nat)
    ensures Find(s, w, p).Some? ==>
              At(s, Find(s, w, p).value, w) && forall k | p <= k < Find(s, w, p).value :: !At(s, k, w)
    ensures Find(s, w, p).None? ==> forall k | p <= k :: !At(s, k, w)
    decreases |s| - p
  {
    if p + |w| <= |s| && !At(s, p, w) {
      FindIsFirst(s, w, p + 1);
    }
  }
}
