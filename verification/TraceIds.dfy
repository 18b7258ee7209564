/** Trace and span ids as lowercase hexadecimal text (section 3.2.2.3 trace-id and section 3.2.2.4
    parent-id of W3C Trace Context). */
module TraceIds {
  import opened Text

  const TRACE_ID_LENGTH := 32
  const SPAN_ID_LENGTH := 16

  predicate IsHex(c: char) {
    '0' <= c <= '9' || 'a' <= c <= 'f'
  }

  function HexDigit(d: nat): char
    requires d < 16
  {
    if d < 10 then ('0' as int + d) as char else ('a' as int + (d - 10)) as char
  }

  function HexValue(c: char): (d: nat)
    requires IsHex(c)
    ensures d < 16 && HexDigit(d) == c
  {
    if c <= '9' then c as int - '0' as int else c as int - 'a' as int + 10
  }

  predicate AllHex(s: string) {
    forall i | 0 <= i < |s| :: IsHex(s[i])
  }

  /** `int(s, 16)` on lowercase hexadecimal digits. */
  function Parse(s: string): nat
    requires AllHex(s)
  {
    if s == "" then 0 else 16 * Parse(s[..|s| - 1]) + HexValue(s[|s| - 1])
  }

  /** What the validation accepts: the exact length, lowercase digits, and not all zeros. */
  predicate Accepts(s: string, length: nat) {
    |s| == length && AllHex(s) && Parse(s) != 0
  }

  function Digits(n: nat): string {
    if n < 16 then [HexDigit(n)] else Digits(n / 16) + [HexDigit(n % 16)]
  }

  function Zeros(k: nat): (s: string)
    ensures |s| == k
  {
    seq(k, i => '0')
  }

  /** The shortest digits of `n`, padded with zeros to the width. */
  function Print(n: nat, width: nat): string {
    var digits := Digits(n);
    if |digits| < width then Zeros(width - |digits|) + digits else digits
  }

  /** The id of the current span as text; none without a valid span. */
  function CurrentId(id: Option<nat>, width: nat): Option<string> {
    if id.None? || id.value == 0 then None else Some(Print(id.value, width))
  }

  /** The ids of a link; nothing when the validation rejects one of the texts. */
  function LinkIds(trace: string, span: string): Option<(nat, nat)> {
    if Accepts(trace, TRACE_ID_LENGTH) && Accepts(span, SPAN_ID_LENGTH) then Some((Parse(trace), Parse(span))) else None
  }

  // ----- width -----

  ghost function Pow16(k: nat): nat {
    if k == 0 then 1 else 16 * Pow16(k - 1)
  }

  /** Exactly `width` digits, the low ones of `n`. */
  ghost function Fixed(n: nat, width: nat): string {
    if width == 0 then "" else Fixed(n / 16, width - 1) + [HexDigit(n % 16)]
  }

  lemma {:induction false} FixedZero(width: nat)
    ensures Fixed(0, width) == Zeros(width)
  {
    if width > 0 {
      FixedZero(width - 1);
    }
  }

  /** A number that fits is printed with exactly `width` digits. */
  lemma {:induction false} PrintIsFixed(n: nat, width: nat)
    requires width >= 1 && n < Pow16(width)
    ensures Print(n, width) == Fixed(n, width) && |Digits(n)| <= width
  {
    if n < 16 {
      FixedZero(width - 1);
      assert Fixed(n, width) == Zeros(width - 1) + [HexDigit(n)];
      if width == 1 {
        assert Zeros(0) + [HexDigit(n)] == [HexDigit(n)];
      }
    } else {
      var high, low := n / 16, [HexDigit(n % 16)];
      assert width >= 2 && high < Pow16(width - 1);
      PrintIsFixed(high, width - 1);
      var digits := Digits(high);
      if |digits| < width - 1 {
        assert Zeros(width - 1 - |digits|) + digits + low == Zeros(width - 1 - |digits|) + (digits + low);
      }
    }
  }

  lemma {:induction false} FixedParses(n: nat, width: nat)
    requires n < Pow16(width)
    ensures |Fixed(n, width)| == width && AllHex(Fixed(n, width)) && Parse(Fixed(n, width)) == n
  {
    if width > 0 {
      FixedParses(n / 16, width - 1);
      var s := Fixed(n, width);
      assert s[..|s| - 1] == Fixed(n / 16, width - 1);
      HexDigitIsHex(n % 16);
    }
  }

  lemma HexDigitIsHex(d: nat)
    requires d < 16
    ensures IsHex(HexDigit(d)) && HexValue(HexDigit(d)) == d
  {
  }

  lemma {:induction false} ParsedIsFixed(s: string)
    requires AllHex(s)
    ensures Parse(s) < Pow16(|s|) && Fixed(Parse(s), |s|) == s
  {
    if s != "" {
      var front, last := s[..|s| - 1], HexValue(s[|s| - 1]);
      ParsedIsFixed(front);
      assert Parse(s) == 16 * Parse(front) + last;
      assert Parse(s) / 16 == Parse(front) && Parse(s) % 16 == last;
    }
  }

  lemma {:induction false} TooWide(n: nat, width: nat)
    requires n >= Pow16(width)
    ensures |Digits(n)| > width
  {
    if width > 0 {
      assert Pow16(width) >= 16 by {
        PowPositive(width - 1);
      }
      TooWide(n / 16, width - 1);
    }
  }

  lemma {:induction false} PowPositive(k: nat)
    ensures Pow16(k) >= 1
  {
    if k > 0 {
      PowPositive(k - 1);
    }
  }

  // ----- round trips -----

  /** Every accepted text is what its number prints to. */
  lemma ParseThenPrint(s: string, width: nat)
    requires Accepts(s, width)
    ensures 0 < Parse(s) < Pow16(width) && Print(Parse(s), width) == s
  {
    ParsedIsFixed(s);
    PrintIsFixed(Parse(s), width);
  }

  /** A number prints to an accepted text exactly when it is not zero and fits the width; then the
      text parses back to it. */
  lemma PrintThenParse(n: nat, width: nat)
    requires width >= 1
    ensures Accepts(Print(n, width), width) <==> 0 < n < Pow16(width)
    ensures 0 < n < Pow16(width) ==> Parse(Print(n, width)) == n
  {
    if n < Pow16(width) {
      PrintIsFixed(n, width);
      FixedParses(n, width);
    } else {
      TooWide(n, width);
    }
  }

  /** The ids a span reports, as 32 and 16 digits, can always be linked to, and the link has its ids. */
  lemma LinkToCurrentSpan(trace: nat, span: nat, traceWidth: nat, spanWidth: nat)
    requires traceWidth == 32 && spanWidth == 16
    requires 0 < trace < Pow16(traceWidth) && 0 < span < Pow16(spanWidth)
    ensures CurrentId(Some(trace), traceWidth).Some? && CurrentId(Some(span), spanWidth).Some?
    ensures LinkIds(CurrentId(Some(trace), traceWidth).value, CurrentId(Some(span), spanWidth).value) == Some((trace, span))
  {
    PrintThenParse(trace, traceWidth);
    PrintThenParse(span, spanWidth);
  }

  // ----- the texts -----

  /** The value of a digit: its index among the sixteen. */
  lemma DigitValue(c: char)
    requires IsHex(c)
    ensures "0123456789abcdef"[HexValue(c)] == c
  {
  }

  lemma Shift(high: nat, power: nat, low: nat, digit: nat)
    ensures 16 * (high * power + low) + digit == high * (16 * power) + (16 * low + digit)
  {
  }

  lemma Positional(s: string, front: string, last: char, high: nat, power: nat)
    requires AllHex(s) && AllHex(front) && IsHex(last)
    requires Parse(s + front) == high * power + Parse(front)
    ensures Parse(s + (front + [last])) == high * (16 * power) + Parse(front + [last])
  {
    var t := front + [last];
    assert t[..|t| - 1] == front && (s + t)[..|s + t| - 1] == s + front;
    Shift(high, power, Parse(front), HexValue(last));
  }

  /** A text is read from the left, the most significant digit first. */
  lemma {:induction false} ParseAppend(s: string, t: string)
    requires AllHex(s) && AllHex(t)
    ensures Parse(s + t) == Parse(s) * Pow16(|t|) + Parse(t)
  {
    if t == "" {
      assert s + t == s;
    } else {
      var front, last, n := t[..|t| - 1], t[|t| - 1], |t| - 1;
      ParseAppend(s, front);
      assert t == front + [last];
      Positional(s, front, last, Parse(s), Pow16(n));
      assert Pow16(|t|) == 16 * Pow16(n);
    }
  }

  lemma {:induction false} ZeroMeans(s: string)
    requires AllHex(s)
    ensures Parse(s) == 0 <==> forall i | 0 <= i < |s| :: s[i] == '0'
  {
    if s != "" {
      var front := s[..|s| - 1];
      ZeroMeans(front);
      assert forall i | 0 <= i < |front| :: s[i] == front[i];
      DigitValue(s[|s| - 1]);
    }
  }

  predicate IsLowerHex(s: string) {
    forall i | 0 <= i < |s| :: '0' <= s[i] <= '9' || 'a' <= s[i] <= 'f'
  }

  ghost predicate SomeNonZero(s: string) {
    exists i :: 0 <= i < |s| && s[i] != '0'
  }

  /** Exactly the texts of 32 and of 16 lowercase digits that are not all zeros make a link. */
  lemma LinkedTexts(trace: string, span: string)
    ensures LinkIds(trace, span).Some? <==>
            |trace| == 32 && |span| == 16 && IsLowerHex(trace) && IsLowerHex(span) && SomeNonZero(trace) && SomeNonZero(span)
  {
    if AllHex(trace) {
      ZeroMeans(trace);
    }
    if AllHex(span) {
      ZeroMeans(span);
    }
  }
}
