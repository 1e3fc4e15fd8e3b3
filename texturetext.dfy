/**
 * MCTextureText: a piece of text drawn with a texture font. Its width and
 * height in glyph units follow from the line structure of the text: one
 * glyph height per line, one glyph width per character of the longest
 * line. Rendering is not part of this model.
 */
module TextureText {

  /** The number of line breaks in s. */
  function NewlineCount(s: seq<char>): (n: nat)
    ensures n <= |s|
  {
    if s == [] then 0
    else NewlineCount(s[..|s| - 1]) + (if s[|s| - 1] == '\n' then 1 else 0)
  }

  /** The length of the last line of s: the characters after its last line break. */
  function TrailingRun(s: seq<char>): (n: nat)
    ensures n <= |s|
  {
    if s == [] then 0
    else if s[|s| - 1] == '\n' then 0
    else TrailingRun(s[..|s| - 1]) + 1
  }

  /** The length of the longest line of s. */
  function LongestRun(s: seq<char>): (n: nat)
    ensures n >= TrailingRun(s)
    ensures n <= |s|
  {
    if s == [] then 0
    else
      var m := LongestRun(s[..|s| - 1]);
      var t := TrailingRun(s);
      if t > m then t else m
  }

  /** The text width: glyph width per character of the longest line; never negative. */
  function TextWidth(s: seq<char>, glyphWidth: real): (w: real)
    ensures w >= 0.0
    ensures glyphWidth >= 0.0 ==> w == glyphWidth * LongestRun(s) as real
  {
    if glyphWidth >= 0.0 then
      GlyphsMonotone(glyphWidth, 0, LongestRun(s));
      GlyphsIsProduct(glyphWidth, LongestRun(s));
      Span(glyphWidth, LongestRun(s))
    else Span(glyphWidth, LongestRun(s))
  }

  /** The width of n glyphs; a negative glyph width never widens the text. */
  function Span(glyphWidth: real, n: nat): real {
    if glyphWidth >= 0.0 then Glyphs(glyphWidth, n) else 0.0
  }

  /** n glyph widths laid end to end, one addition per glyph as the scan does. */
  function Glyphs(glyphWidth: real, n: nat): real {
    if n == 0 then 0.0 else Glyphs(glyphWidth, n - 1) + glyphWidth
  }

  /** Laying out n glyphs one after another is multiplying by n. */
  lemma {:induction false} GlyphsIsProduct(glyphWidth: real, n: nat)
    ensures Glyphs(glyphWidth, n) == glyphWidth * n as real
  {
    if n > 0 {
      GlyphsIsProduct(glyphWidth, n - 1);
    }
  }

  /** More glyphs of a non-negative width are no narrower. */
  lemma {:induction false} GlyphsMonotone(glyphWidth: real, a: nat, b: nat)
    requires glyphWidth >= 0.0 && a <= b
    ensures Glyphs(glyphWidth, a) <= Glyphs(glyphWidth, b)
  {
    if a < b {
      GlyphsMonotone(glyphWidth, a, b - 1);
    }
  }

  /** Glyphs of a negative width never reach past the start. */
  lemma {:induction false} GlyphsNegative(glyphWidth: real, n: nat)
    requires glyphWidth < 0.0
    ensures Glyphs(glyphWidth, n) <= 0.0
  {
    if n > 0 {
      GlyphsNegative(glyphWidth, n - 1);
    }
  }

  /** The text height: one glyph height per line. */
  function TextHeight(s: seq<char>, glyphHeight: real): (h: real)
    ensures glyphHeight >= 0.0 ==> h >= glyphHeight
  {
    glyphHeight * (1 + NewlineCount(s)) as real
  }

  /** Every line break counts once: NewlineCount agrees with the multiset of characters. */
  lemma {:induction false} NewlineCountIsOccurrences(s: seq<char>)
    ensures NewlineCount(s) == multiset(s)['\n']
  {
    if s != [] {
      var p := s[..|s| - 1];
      NewlineCountIsOccurrences(p);
      assert s == p + [s[|s| - 1]];
      assert multiset(s) == multiset(p) + multiset{s[|s| - 1]};
    }
  }

  /** The last line of s is a segment of s without a line break. */
  lemma {:induction false} TrailingRunIsLine(s: seq<char>)
    ensures '\n' !in s[|s| - TrailingRun(s)..]
  {
    if s != [] && s[|s| - 1] != '\n' {
      var p := s[..|s| - 1];
      TrailingRunIsLine(p);
      assert s[|s| - TrailingRun(s)..] == p[|p| - TrailingRun(p)..] + [s[|s| - 1]];
    }
  }

  /** A line-break-free segment ending at the end of s is no longer than its last line. */
  lemma {:induction false} SuffixWithinTrailingRun(s: seq<char>, i: nat)
    requires i <= |s| && '\n' !in s[i..]
    ensures |s| - i <= TrailingRun(s)
  {
    if i < |s| {
      var p := s[..|s| - 1];
      assert s[|s| - 1] == s[i..][|s| - 1 - i];
      assert p[i..] == s[i..|s| - 1];
      assert '\n' !in p[i..] by {
        forall k | 0 <= k < |p[i..]| ensures p[i..][k] != '\n' {
          assert p[i..][k] == s[i..][k];
        }
      }
      SuffixWithinTrailingRun(p, i);
    }
  }

  /** No line-break-free segment of s is longer than LongestRun(s). */
  lemma {:induction false} LongestRunBounds(s: seq<char>, i: nat, j: nat)
    requires i <= j <= |s| && '\n' !in s[i..j]
    ensures j - i <= LongestRun(s)
  {
    if j == |s| {
      assert s[i..] == s[i..j];
      SuffixWithinTrailingRun(s, i);
    } else {
      var p := s[..|s| - 1];
      assert p[i..j] == s[i..j];
      LongestRunBounds(p, i, j);
    }
  }

  /** Some line-break-free segment of s is exactly LongestRun(s) long. */
  lemma {:induction false} LongestRunAttained(s: seq<char>) returns (i: nat, j: nat)
    ensures i <= j <= |s| && '\n' !in s[i..j] && j - i == LongestRun(s)
  {
    if s == [] {
      i, j := 0, 0;
    } else {
      var p := s[..|s| - 1];
      if TrailingRun(s) > LongestRun(p) {
        TrailingRunIsLine(s);
        i, j := |s| - TrailingRun(s), |s|;
        assert s[i..j] == s[|s| - TrailingRun(s)..];
      } else {
        i, j := LongestRunAttained(p);
        assert s[i..j] == p[i..j] by {
          forall k | 0 <= k < j - i ensures s[i..j][k] == p[i..j][k] {
            assert s[i..j][k] == s[i + k] && p[i..j][k] == p[i + k];
          }
        }
      }
    }
  }

  /** Text without line breaks is one line: its width is glyph width times its length. */
  lemma SingleLine(s: seq<char>, glyphWidth: real, glyphHeight: real)
    requires '\n' !in s && glyphWidth >= 0.0
    ensures TextWidth(s, glyphWidth) == glyphWidth * |s| as real
    ensures TextHeight(s, glyphHeight) == glyphHeight
  {
    LongestRunBounds(s, 0, |s|);
    assert s[0..|s|] == s;
    GlyphsIsProduct(glyphWidth, |s|);
    NewlineCountIsOccurrences(s);
    assert multiset(s)['\n'] == 0;
  }

  /** Empty text is one glyph high and has no width. */
  lemma EmptyText(glyphWidth: real, glyphHeight: real)
    ensures TextWidth([], glyphWidth) == 0.0
    ensures TextHeight([], glyphHeight) == glyphHeight
  {
  }

  /**
   * One more character on the current line: the line grows by one, the
   * width is the wider of the old width and the grown line, and the
   * height is unchanged.
   */
  lemma ExtendLine(p: seq<char>, c: char, glyphWidth: real, glyphHeight: real)
    requires c != '\n'
    ensures TrailingRun(p + [c]) == TrailingRun(p) + 1
    ensures TextWidth(p + [c], glyphWidth) ==
              Wider(TextWidth(p, glyphWidth), Glyphs(glyphWidth, TrailingRun(p) + 1))
    ensures TextHeight(p + [c], glyphHeight) == TextHeight(p, glyphHeight)
  {
    var s := p + [c];
    assert s[..|s| - 1] == p;
    var k, m := TrailingRun(p), LongestRun(p);
    if glyphWidth >= 0.0 {
      if k + 1 > m {
        GlyphsMonotone(glyphWidth, m, k + 1);
      } else {
        GlyphsMonotone(glyphWidth, k + 1, m);
      }
    } else {
      GlyphsNegative(glyphWidth, k + 1);
    }
  }

  /** The larger of the current width and a line's width. */
  function Wider(width: real, line: real): real {
    if line > width then line else width
  }

  /** A line break starts a new, empty line. */
  lemma BreakLine(p: seq<char>, glyphWidth: real, glyphHeight: real)
    ensures TrailingRun(p + ['\n']) == 0
    ensures TextWidth(p + ['\n'], glyphWidth) == TextWidth(p, glyphWidth)
    ensures TextHeight(p + ['\n'], glyphHeight) == TextHeight(p, glyphHeight) + glyphHeight
  {
    var s := p + ['\n'];
    assert s[..|s| - 1] == p;
  }

  /** The scan of updateTextDimensions. */
  method Measure(text: seq<char>, glyphWidth: real, glyphHeight: real)
    returns (textWidth: real, textHeight: real)
    ensures textWidth == TextWidth(text, glyphWidth)
    ensures textHeight == TextHeight(text, glyphHeight)
  {
    var maxLength := 0.0;
    var length := 0.0;

    textHeight := glyphHeight;

    for i := 0 to |text|
      invariant length == Glyphs(glyphWidth, TrailingRun(text[..i]))
      invariant maxLength == TextWidth(text[..i], glyphWidth)
      invariant textHeight == TextHeight(text[..i], glyphHeight)
    {
      var p := text[..i];
      assert text[..i + 1] == p + [text[i]];
      if text[i] == '\n' {
        BreakLine(p, glyphWidth, glyphHeight);
        textHeight := textHeight + glyphHeight;
        length := 0.0;
      } else {
        ExtendLine(p, text[i], glyphWidth, glyphHeight);
        length := length + glyphWidth;
        if length > maxLength {
          maxLength := length;
        }
      }
    }
    assert text[..|text|] == text;

    textWidth := maxLength;
  }

  /** MCGLColor: red, green, blue and alpha. */
  datatype Color = Color(r: real, g: real, b: real, a: real)

  const White := Color(1.0, 1.0, 1.0, 1.0)

  class TextureText {
    var text: seq<char>
    var glyphWidth: real
    var glyphHeight: real
    var color: Color
    var xOffset: real
    var yOffset: real
    var textWidth: real
    var textHeight: real

    /** The stored dimensions are those of the stored text and glyph size. */
    ghost predicate Valid()
      reads this
    {
      textWidth == TextWidth(text, glyphWidth) && textHeight == TextHeight(text, glyphHeight)
    }

    constructor (t: seq<char>)
      ensures Valid()
      ensures text == t && glyphWidth == 32.0 && glyphHeight == 32.0
      ensures color == White && xOffset == 2.0 && yOffset == -2.0
    {
      text := t;
      glyphWidth, glyphHeight := 32.0, 32.0;
      color := White;
      xOffset, yOffset := 2.0, -2.0;
      var w, h := Measure(t, 32.0, 32.0);
      textWidth, textHeight := w, h;
    }

    method UpdateTextDimensions()
      modifies this
      ensures Valid()
      ensures text == old(text) && glyphWidth == old(glyphWidth) && glyphHeight == old(glyphHeight)
      ensures color == old(color) && xOffset == old(xOffset) && yOffset == old(yOffset)
    {
      textWidth, textHeight := Measure(text, glyphWidth, glyphHeight);
    }

    method SetText(t: seq<char>)
      modifies this
      ensures Valid() && text == t
      ensures glyphWidth == old(glyphWidth) && glyphHeight == old(glyphHeight)
      ensures color == old(color) && xOffset == old(xOffset) && yOffset == old(yOffset)
    {
      text := t;
      UpdateTextDimensions();
    }

    function Text(): seq<char>
      reads this
    {
      text
    }

    method SetGlyphSize(width: real, height: real)
      modifies this
      ensures Valid() && glyphWidth == width && glyphHeight == height
      ensures text == old(text)
      ensures color == old(color) && xOffset == old(xOffset) && yOffset == old(yOffset)
    {
      glyphWidth := width;
      glyphHeight := height;
      UpdateTextDimensions();
    }

    method SetColor(c: Color)
      modifies this
      ensures color == c
      ensures text == old(text) && glyphWidth == old(glyphWidth) && glyphHeight == old(glyphHeight)
      ensures textWidth == old(textWidth) && textHeight == old(textHeight)
      ensures xOffset == old(xOffset) && yOffset == old(yOffset)
    {
      color := c;
    }

    method SetShadowOffset(x: real, y: real)
      modifies this
      ensures xOffset == x && yOffset == y
      ensures text == old(text) && glyphWidth == old(glyphWidth) && glyphHeight == old(glyphHeight)
      ensures textWidth == old(textWidth) && textHeight == old(textHeight)
      ensures color == old(color)
    {
      xOffset := x;
      yOffset := y;
    }

    /** The drawn width for a font's horizontal density. */
    function Width(xDensity: real): (w: real)
      requires Valid()
      reads this
      ensures w == xDensity * TextWidth(text, glyphWidth)
    {
      xDensity * textWidth
    }

    /** The drawn height for a font's vertical density. */
    function Height(yDensity: real): (h: real)
      requires Valid()
      reads this
      ensures h == yDensity * TextHeight(text, glyphHeight)
    {
      yDensity * textHeight
    }
  }
}
