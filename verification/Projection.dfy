/** The head/tail projection of one tool-result text. */
module Projection {
  import opened Words
  import opened Text

  const HEAD_CHARS: nat := 350
  const TAIL_CHARS: nat := 100
  const MIN_CHARS: nat := 500

  /** The fixed piece that marks a text as already projected. */
  const SENTINEL: string := "…[已压缩，省略 "
  const MARKER_NOTE: string := "字符；完整内容可从原始来源重新获取"
  const MARKER_REST: string := " " + MARKER_NOTE + "]" + "…"

  function Marker(omitted: nat): string {
    SENTINEL + Decimal(omitted) + MARKER_REST
  }

  /** Keeps `head` leading and `tail` trailing characters around the omission marker. */
  function Shorten(text: string, head: nat, tail: nat): string
    requires head + tail <= |text|
  {
    text[..head] + Marker(|text| - head - tail) + text[|text| - tail..]
  }

  /** `project_tool_result_text`; the caller guarantees more characters than head and tail. */
  function Project(text: string): string
    requires HEAD_CHARS + TAIL_CHARS <= |text|
  {
    Shorten(text, HEAD_CHARS, TAIL_CHARS)
  }

  /** The bytes a projection saves, zero when the projection is longer. */
  function Saved(text: string): nat
    requires HEAD_CHARS + TAIL_CHARS <= |text|
  {
    if Utf8Len(text) >= Utf8Len(Project(text)) then Utf8Len(text) - Utf8Len(Project(text)) else 0
  }

  /** A text the planner selects: long enough, not yet projected, and worth projecting. */
  predicate Eligible(text: string) {
    |text| > MIN_CHARS && !Contains(text, SENTINEL) && Saved(text) > 0
  }

  /** What a micro compaction makes of a text in its scope. */
  function Compacted(text: string): string {
    if Eligible(text) then Project(text) else text
  }

  lemma ShortenedIsMarked(text: string, head: nat, tail: nat)
    requires head + tail <= |text|
    ensures Contains(Shorten(text, head, tail), SENTINEL)
  {
    var omitted := |text| - head - tail;
    var rest := Decimal(omitted) + MARKER_REST + text[|text| - tail..];
    assert Shorten(text, head, tail) == text[..head] + SENTINEL + rest;
    ContainsMiddle(text[..head], SENTINEL, rest);
  }

  /** A projected text is never selected again. */
  lemma CompactedIsStable(text: string)
    ensures !Eligible(Compacted(text))
    ensures Compacted(Compacted(text)) == Compacted(text)
  {
    if Eligible(text) {
      ShortenedIsMarked(text, HEAD_CHARS, TAIL_CHARS);
    }
  }

  /** A selected text really gets shorter, so its projection differs from it. */
  lemma EligibleShrinks(text: string)
    requires Eligible(text)
    ensures Utf8Len(Project(text)) == Utf8Len(text) - Saved(text)
    ensures Project(text) != text
  {
  }

  lemma SentinelBytes()
    ensures Utf8Len(SENTINEL) == 23
  {
    var han := "已压缩，省略";
    assert SENTINEL == "…" + "[" + han + " ";
    Utf8LenUniform("…", 3);
    Utf8LenUniform("[", 1);
    Utf8LenUniform(han, 3);
    Utf8LenUniform(" ", 1);
    Utf8LenFour("…", "[", han, " ");
  }

  lemma NoteBytes()
    ensures Utf8Len(MARKER_NOTE) == 51
  {
    Utf8LenUniform(MARKER_NOTE, 3);
  }

  lemma WrappedBytes(note: string)
    ensures Utf8Len(" " + note + "]" + "…") == 5 + Utf8Len(note)
  {
    Utf8LenUniform(" ", 1);
    Utf8LenUniform("]", 1);
    Utf8LenUniform("…", 3);
    Utf8LenFour(" ", note, "]", "…");
  }

  lemma MarkerRestBytes()
    ensures Utf8Len(MARKER_REST) == 56
  {
    NoteBytes();
    WrappedBytes(MARKER_NOTE);
  }

  /** The marker takes 79 bytes besides the digits of the count. */
  lemma MarkerBytes(omitted: nat)
    ensures Utf8Len(Marker(omitted)) == 79 + |Decimal(omitted)|
  {
    SentinelBytes();
    MarkerRestBytes();
    DecimalIsAscii(omitted);
    Utf8LenConcat(SENTINEL, Decimal(omitted));
    Utf8LenConcat(SENTINEL + Decimal(omitted), MARKER_REST);
  }

  /** The bytes saved are those of the omitted middle beyond what the marker costs. */
  lemma SavedIsOmittedLessMarker(text: string)
    requires HEAD_CHARS + TAIL_CHARS <= |text|
    ensures var omitted := |text| - HEAD_CHARS - TAIL_CHARS;
      var middle := text[HEAD_CHARS..|text| - TAIL_CHARS];
      Saved(text) == Max(0, Utf8Len(middle) - 79 - |Decimal(omitted)|)
  {
    var omitted := |text| - HEAD_CHARS - TAIL_CHARS;
    var head, tail := text[..HEAD_CHARS], text[|text| - TAIL_CHARS..];
    var middle := text[HEAD_CHARS..|text| - TAIL_CHARS];
    assert text == (head + middle) + tail;
    Utf8LenConcat(head + middle, tail);
    Utf8LenConcat(head, middle);
    Utf8LenConcat(head + Marker(omitted), tail);
    Utf8LenConcat(head, Marker(omitted));
    MarkerBytes(omitted);
  }

  lemma {:induction false} DecimalLength(n: nat)
    ensures n < 10 ==> |Decimal(n)| == 1
    ensures 10 <= n < 100 ==> |Decimal(n)| == 2
  {
    if 10 <= n < 100 {
      assert Decimal(n) == Decimal(n / 10) + [Digit(n % 10)];
    }
  }

  /** An ASCII text gains from projection exactly from 532 characters on. */
  lemma AsciiGainsFrom532(text: string)
    requires |text| > MIN_CHARS && !Contains(text, SENTINEL)
    requires forall i | 0 <= i < |text| :: CharWidth(text[i]) == 1
    ensures Eligible(text) <==> |text| >= 532
    ensures |text| == 532 ==> Saved(text) == 1
  {
    var omitted := |text| - HEAD_CHARS - TAIL_CHARS;
    Utf8LenUniform(text[HEAD_CHARS..|text| - TAIL_CHARS], 1);
    SavedIsOmittedLessMarker(text);
    DecimalLength(omitted);
    if omitted >= 100 {
      DecimalGrowth(omitted);
    }
  }

  lemma {:induction false} DecimalGrowth(n: nat)
    requires n >= 100
    ensures |Decimal(n)| <= n - 80
  {
    if n >= 1000 {
      DecimalGrowth(n / 10);
    } else {
      DecimalLength(n / 10);
    }
  }
}
