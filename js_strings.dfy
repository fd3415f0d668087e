/**
 * The two JavaScript string built-ins the chat session relies on:
 * `String.prototype.trim` (used to decide that a buffer is blank) and
 * `encodeURIComponent` (used to build the map-search link of a clinic).
 * Strings are sequences of Unicode scalar values.
 */
module JsStrings {

  /** WhiteSpace or LineTerminator in the sense of ECMAScript: what `trim` strips. */
  predicate IsJsWhitespace(c: char) {
    c == '\t' || c == '\n' || c == '\U{000B}' || c == '\U{000C}' || c == '\r' || c == ' '
    || c == '\U{00A0}' || c == '\U{1680}' || ('\U{2000}' <= c <= '\U{200A}')
    || c == '\U{2028}' || c == '\U{2029}' || c == '\U{202F}' || c == '\U{205F}'
    || c == '\U{3000}' || c == '\U{FEFF}'
  }

  /** Removes leading whitespace. */
  function TrimStart(s: string): string {
    if s != [] && IsJsWhitespace(s[0]) then TrimStart(s[1..]) else s
  }

  /** Removes trailing whitespace. */
  function TrimEnd(s: string): string {
    if s != [] && IsJsWhitespace(s[|s| - 1]) then TrimEnd(s[..|s| - 1]) else s
  }

  /** `s.trim()`. */
  function Trim(s: string): string {
    TrimEnd(TrimStart(s))
  }

  /** `!s.trim()`: the trimmed string is the empty string, which is falsy. */
  predicate IsBlank(s: string) {
    Trim(s) == ""
  }

  /** `TrimStart` drops exactly the leading run of whitespace: what is left is a suffix starting with a non-whitespace character. */
  lemma {:induction false} TrimStartDropsLeadingWhitespace(s: string)
    ensures var r := TrimStart(s);
            |r| <= |s| && r == s[|s| - |r|..]
            && (forall i :: 0 <= i < |s| - |r| ==> IsJsWhitespace(s[i]))
            && (r == [] || !IsJsWhitespace(r[0]))
  {
    if s != [] && IsJsWhitespace(s[0]) {
      var t := s[1..];
      TrimStartDropsLeadingWhitespace(t);
      assert TrimStart(s) == TrimStart(t);
      assert t[|t| - |TrimStart(t)|..] == s[|s| - |TrimStart(t)|..];
    }
  }

  /** `TrimEnd` drops exactly the trailing run of whitespace: what is left is a prefix ending in a non-whitespace character. */
  lemma {:induction false} TrimEndDropsTrailingWhitespace(s: string)
    ensures var r := TrimEnd(s);
            |r| <= |s| && r == s[..|r|]
            && (forall i :: |r| <= i < |s| ==> IsJsWhitespace(s[i]))
            && (r == [] || !IsJsWhitespace(r[|r| - 1]))
  {
    if s != [] && IsJsWhitespace(s[|s| - 1]) {
      var t := s[..|s| - 1];
      TrimEndDropsTrailingWhitespace(t);
      assert TrimEnd(s) == TrimEnd(t);
      assert t[..|TrimEnd(t)|] == s[..|TrimEnd(t)|];
    }
  }

  /** A string is blank exactly when every one of its characters is whitespace. */
  lemma BlankIffAllWhitespace(s: string)
    ensures IsBlank(s) <==> forall i :: 0 <= i < |s| ==> IsJsWhitespace(s[i])
  {
    var t := TrimStart(s);
    TrimStartDropsLeadingWhitespace(s);
    TrimEndDropsTrailingWhitespace(t);
    if t != [] {
      assert !IsJsWhitespace(s[|s| - |t|]);
    }
  }

  /** The characters `encodeURIComponent` leaves as they are. */
  predicate IsUnreserved(c: char) {
    ('A' <= c <= 'Z') || ('a' <= c <= 'z') || ('0' <= c <= '9')
    || c == '-' || c == '_' || c == '.' || c == '!' || c == '~' || c == '*'
    || c == '\'' || c == '(' || c == ')'
  }

  /** The characters that can appear in the output of `encodeURIComponent`. */
  predicate IsUriSafe(c: char) {
    IsUnreserved(c) || c == '%'
  }

  /** The UTF-8 encoding of one Unicode scalar value; `Utf8Decodes` states which bytes these are. */
  function Utf8(c: char): (bs: seq<int>)
    ensures 1 <= |bs| <= 4
    ensures forall i :: 0 <= i < |bs| ==> 0 <= bs[i] < 256
  {
    var n := c as int;
    if n < 0x80 then [n]
    else
      var q1, r0 := n / 0x40, n % 0x40;
      if n < 0x800 then [0xC0 + q1, 0x80 + r0]
      else
        var q2, r1 := q1 / 0x40, q1 % 0x40;
        if n < 0x1_0000 then [0xE0 + q2, 0x80 + r1, 0x80 + r0]
        else
          var q3, r2 := q2 / 0x40, q2 % 0x40;
          [0xF0 + q3, 0x80 + r2, 0x80 + r1, 0x80 + r0]
  }

  /**
   * `Utf8` is the shortest UTF-8 form: the lead byte announces the length,
   * every later byte is a continuation byte, and the payload bits read back
   * give the code point.
   */
  lemma Utf8Decodes(c: char)
    ensures var bs, n := Utf8(c), c as int;
            (forall i :: 1 <= i < |bs| ==> 0x80 <= bs[i] < 0xC0)
            && (|bs| == 1 ==> n < 0x80 && bs[0] == n)
            && (|bs| == 2 ==> 0x80 <= n < 0x800 && 0xC0 <= bs[0] < 0xE0
                              && (bs[0] - 0xC0) * 0x40 + (bs[1] - 0x80) == n)
            && (|bs| == 3 ==> 0x800 <= n < 0x1_0000 && 0xE0 <= bs[0] < 0xF0
                              && ((bs[0] - 0xE0) * 0x40 + (bs[1] - 0x80)) * 0x40 + (bs[2] - 0x80) == n)
            && (|bs| == 4 ==> 0x1_0000 <= n && 0xF0 <= bs[0] < 0xF5
                              && (((bs[0] - 0xF0) * 0x40 + (bs[1] - 0x80)) * 0x40 + (bs[2] - 0x80)) * 0x40 + (bs[3] - 0x80) == n)
  {
  }

  /** An upper-case hexadecimal digit, as `encodeURIComponent` writes them. */
  function HexDigit(d: int): (c: char)
    requires 0 <= d < 16
    ensures IsUnreserved(c)
    ensures d < 10 ==> c as int == '0' as int + d
    ensures 10 <= d ==> c as int == 'A' as int + (d - 10)
  {
    "0123456789ABCDEF"[d]
  }

  /** Each byte written as `%XY`. */
  function PercentEncode(bs: seq<int>): (r: string)
    requires forall i :: 0 <= i < |bs| ==> 0 <= bs[i] < 256
    ensures |r| == 3 * |bs|
    ensures forall i :: 0 <= i < |r| ==> IsUriSafe(r[i])
  {
    if bs == [] then ""
    else ['%', HexDigit(bs[0] / 16), HexDigit(bs[0] % 16)] + PercentEncode(bs[1..])
  }

  /** Triple `k` of `PercentEncode(bs)` is `%` followed by the two hexadecimal digits of byte `k`. */
  lemma {:induction false} PercentEncodeAt(bs: seq<int>, k: nat)
    requires forall i :: 0 <= i < |bs| ==> 0 <= bs[i] < 256
    requires k < |bs|
    ensures var r := PercentEncode(bs);
            r[3 * k] == '%' && r[3 * k + 1] == HexDigit(bs[k] / 16) && r[3 * k + 2] == HexDigit(bs[k] % 16)
  {
    if k > 0 {
      PercentEncodeAt(bs[1..], k - 1);
    }
  }

  /** One character of `encodeURIComponent`'s output: itself, or `%XY` for each of its UTF-8 bytes (`EncodeCharEscapes`). */
  function EncodeChar(c: char): (r: string)
    ensures IsUnreserved(c) ==> r == [c]
    ensures !IsUnreserved(c) ==> |r| == 3 * |Utf8(c)|
    ensures forall i :: 0 <= i < |r| ==> IsUriSafe(r[i])
  {
    if IsUnreserved(c) then [c] else PercentEncode(Utf8(c))
  }

  /** A reserved character becomes, for each of its UTF-8 bytes in order, `%` and that byte's two hexadecimal digits. */
  lemma EncodeCharEscapes(c: char, k: nat)
    requires !IsUnreserved(c) && k < |Utf8(c)|
    ensures var r, b := EncodeChar(c), Utf8(c)[k];
            r[3 * k] == '%' && r[3 * k + 1] == HexDigit(b / 16) && r[3 * k + 2] == HexDigit(b % 16)
  {
    PercentEncodeAt(Utf8(c), k);
  }

  /**
   * `encodeURIComponent(s)`: every result character is unreserved or `%`, so
   * none of `"`, `<`, `>`, `&` or a space survives, and a string of
   * unreserved characters is left as it is.
   */
  function EncodeUriComponent(s: string): (r: string)
    ensures forall i :: 0 <= i < |r| ==> IsUriSafe(r[i])
    ensures (forall i :: 0 <= i < |s| ==> IsUnreserved(s[i])) ==> r == s
    ensures |r| >= |s|
  {
    if s == [] then "" else EncodeChar(s[0]) + EncodeUriComponent(s[1..])
  }

  /** No quote, angle bracket, ampersand or space survives encoding. */
  lemma EncodedHasNoMarkup(s: string)
    ensures var r := EncodeUriComponent(s);
            forall i :: 0 <= i < |r| ==> r[i] != '"' && r[i] != '<' && r[i] != '>' && r[i] != '&' && r[i] != ' '
  {
    var r := EncodeUriComponent(s);
    assert forall i :: 0 <= i < |r| ==> IsUriSafe(r[i]);
  }

  /** Encoding distributes over concatenation, character by character. */
  lemma {:induction false} EncodeConcat(s: string, t: string)
    ensures EncodeUriComponent(s + t) == EncodeUriComponent(s) + EncodeUriComponent(t)
  {
    if s == [] {
      assert s + t == t;
    } else {
      assert (s + t)[1..] == s[1..] + t;
      EncodeConcat(s[1..], t);
    }
  }

  /** A worked value: an accented letter becomes the escapes of its two UTF-8 bytes. */
  lemma EncodeCharExample()
    ensures Utf8('é') == [0xC3, 0xA9]
    ensures EncodeChar('é') == "%C3%A9"
  {
    assert !IsUnreserved('é');
    assert PercentEncode([0xA9]) == ['%', HexDigit(10), HexDigit(9)] + PercentEncode([]);
    assert PercentEncode([0xC3, 0xA9]) == ['%', HexDigit(12), HexDigit(3)] + PercentEncode([0xA9]);
  }
}
