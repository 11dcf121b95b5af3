/** Rust strings: sequences of Unicode scalar values whose length is counted in UTF-8 bytes. */
module Text {
  import opened Words

  /** The number of bytes UTF-8 spends on one scalar value. */
  function CharWidth(c: char): (w: nat)
    ensures 1 <= w <= 4
  {
    var code := c as int;
    if code < 0x80 then 1 else if code < 0x800 then 2 else if code < 0x1_0000 then 3 else 4
  }

  /** `str::len`. */
  function Utf8Len(s: string): nat {
    if s == "" then 0 else CharWidth(s[0]) + Utf8Len(s[1..])
  }

  lemma {:induction false} Utf8LenConcat(a: string, b: string)
    ensures Utf8Len(a + b) == Utf8Len(a) + Utf8Len(b)
  {
    if a == "" {
      assert a + b == b;
    } else {
      assert (a + b)[1..] == a[1..] + b;
      Utf8LenConcat(a[1..], b);
    }
  }

  lemma Utf8LenFour(a: string, b: string, c: string, d: string)
    ensures Utf8Len(a + b + c + d) == Utf8Len(a) + Utf8Len(b) + Utf8Len(c) + Utf8Len(d)
  {
    Utf8LenConcat(a + b + c, d);
    Utf8LenConcat(a + b, c);
    Utf8LenConcat(a, b);
  }

  lemma {:induction false} Utf8LenUniform(s: string, width: nat)
    requires forall i | 0 <= i < |s| :: CharWidth(s[i]) == width
    ensures Utf8Len(s) == width * |s|
  {
    if s != "" {
      Utf8LenUniform(s[1..], width);
      assert width * |s| == width + width * (|s| - 1);
    }
  }

  /** `str::contains`. */
  predicate Contains(s: string, part: string) {
    exists i | 0 <= i <= |s| :: part <= s[i..]
  }

  lemma ContainsMiddle(a: string, part: string, b: string)
    ensures Contains(a + part + b, part)
  {
    var s := a + part + b;
    assert part <= s[|a|..];
  }

  /** The decimal rendering of a count, as `to_string` writes it. */
  function Decimal(n: nat): (s: string)
    ensures 1 <= |s|
  {
    if n < 10 then [Digit(n)] else Decimal(n / 10) + [Digit(n % 10)]
  }

  function Digit(d: nat): (c: char)
    requires d < 10
    ensures CharWidth(c) == 1
  {
    (d + '0' as int) as char
  }

  lemma {:induction false} DecimalIsAscii(n: nat)
    ensures Utf8Len(Decimal(n)) == |Decimal(n)|
  {
    if n >= 10 {
      DecimalIsAscii(n / 10);
      Utf8LenConcat(Decimal(n / 10), [Digit(n % 10)]);
    }
  }

  /** `utf8_text_tokens`: one token per four bytes, rounded up. */
  function TextTokens(s: string): uint64 {
    ByteTokens(Saturate(Utf8Len(s)))
  }

  function ByteTokens(bytes: uint64): uint64 {
    SatAdd(bytes, 3) / 4
  }

  /** The code points with the Unicode `White_Space` property, which `str::trim` strips. */
  predicate IsWhitespace(c: char) {
    var code := c as int;
    0x9 <= code <= 0xD || code == 0x20 || code == 0x85 || code == 0xA0 || code == 0x1680
    || 0x2000 <= code <= 0x200A || code == 0x2028 || code == 0x2029 || code == 0x202F
    || code == 0x205F || code == 0x3000
  }

  function TrimStart(s: string): string {
    if s != "" && IsWhitespace(s[0]) then TrimStart(s[1..]) else s
  }

  function TrimEnd(s: string): string {
    if s != "" && IsWhitespace(s[|s| - 1]) then TrimEnd(s[..|s| - 1]) else s
  }

  function Trim(s: string): string {
    TrimEnd(TrimStart(s))
  }

  lemma TrimStartShape(s: string)
    ensures TrimStart(s) == "" || !IsWhitespace(TrimStart(s)[0])
  {
  }

  lemma TrimEndShape(s: string)
    ensures TrimEnd(s) == "" || !IsWhitespace(TrimEnd(s)[|TrimEnd(s)| - 1])
    ensures TrimEnd(s) <= s
  {
  }

  predicate AllWhitespace(s: string) {
    forall i | 0 <= i < |s| :: IsWhitespace(s[i])
  }

  lemma {:induction false} TrimStartCuts(s: string) returns (cut: string)
    ensures s == cut + TrimStart(s) && AllWhitespace(cut)
  {
    cut := "";
    if s != "" && IsWhitespace(s[0]) {
      cut := TrimStartCuts(s[1..]);
      cut := [s[0]] + cut;
    }
  }

  lemma {:induction false} TrimEndCuts(s: string) returns (cut: string)
    ensures s == TrimEnd(s) + cut && AllWhitespace(cut)
  {
    cut := "";
    if s != "" && IsWhitespace(s[|s| - 1]) {
      cut := TrimEndCuts(s[..|s| - 1]);
      cut := cut + [s[|s| - 1]];
    }
  }

  /** Only whitespace is trimmed, at both ends, and all of it. */
  lemma TrimCuts(s: string) returns (before: string, after: string)
    ensures s == before + Trim(s) + after && AllWhitespace(before) && AllWhitespace(after)
    ensures Trim(s) != "" ==> !IsWhitespace(Trim(s)[0]) && !IsWhitespace(Trim(s)[|Trim(s)| - 1])
  {
    before := TrimStartCuts(s);
    after := TrimEndCuts(TrimStart(s));
    TrimStartShape(s);
    TrimEndShape(TrimStart(s));
    assert Trim(s) != "" ==> Trim(s)[0] == TrimStart(s)[0];
  }

  /** Trimming a trimmed text changes nothing, so a summary survives being trimmed twice. */
  lemma TrimIdempotent(s: string)
    ensures Trim(Trim(s)) == Trim(s)
  {
    TrimStartShape(s);
    TrimEndShape(TrimStart(s));
    var t := Trim(s);
    assert t == "" || t[0] == TrimStart(s)[0];
    assert TrimStart(t) == t;
  }
}
