/** The text handling of the `/schematic` handler of app.py: join the text
    blocks of the model's reply, strip surrounding whitespace, and cut out
    the span from the first `{` to the last `}` for the JSON parser. */
module Schematic {
  import opened Options

  /** A content block of the reply: its `type` and, for a text block, its
      text (ignored for every other type). */
  datatype Block = Block(kind: string, text: string)

  predicate IsText(block: Block)
  {
    block.kind == "text"
  }

  /** The texts of the text blocks, in order. */
  function TextOf(blocks: seq<Block>): string
  {
    if blocks == [] then ""
    else TextOf(blocks[..|blocks| - 1]) + (if IsText(blocks[|blocks| - 1]) then blocks[|blocks| - 1].text else "")
  }

  lemma {:induction false} TextOfAppend(a: seq<Block>, b: seq<Block>)
    ensures TextOf(a + b) == TextOf(a) + TextOf(b)
    decreases |b|
  {
    if b == [] {
      assert a + b == a;
    } else {
      var b', last := b[..|b| - 1], b[|b| - 1];
      var ab := a + b;
      assert ab[..|ab| - 1] == a + b' && ab[|ab| - 1] == last;
      assert TextOf(ab) == TextOf(a + b') + (if IsText(last) then last.text else "");
      TextOfAppend(a, b');
      assert TextOf(b) == TextOf(b') + (if IsText(last) then last.text else "");
    }
  }

  /** A block of any other type contributes nothing; a text block
      contributes its text, in its place. */
  lemma {:induction false} TextOfBlock(a: seq<Block>, block: Block, b: seq<Block>)
    ensures TextOf(a + [block] + b) == TextOf(a) + (if IsText(block) then block.text else "") + TextOf(b)
  {
    TextOfAppend(a + [block], b);
    TextOfAppend(a, [block]);
    assert [block][..0] == [];
  }

  /** The loop over `message.content` that appends each text block. */
  method JoinText(blocks: seq<Block>) returns (text: string)
    ensures text == TextOf(blocks)
  {
    text := "";
    for i := 0 to |blocks|
      invariant text == TextOf(blocks[..i])
    {
      assert blocks[..i + 1][..i] == blocks[..i];
      if IsText(blocks[i]) {
        text := text + blocks[i].text;
      }
    }
    assert blocks[..|blocks|] == blocks;
  }

  /** The characters Python's `str.strip()` removes: those for which
      `str.isspace()` holds. */
  predicate IsSpace(c: char)
  {
    var n := c as int;
    (0x09 <= n <= 0x0D) || (0x1C <= n <= 0x20) || n == 0x85 || n == 0xA0 || n == 0x1680 ||
    (0x2000 <= n <= 0x200A) || n == 0x2028 || n == 0x2029 || n == 0x202F || n == 0x205F || n == 0x3000
  }

  /** The number of whitespace characters that open `s`. */
  function LeadingSpace(s: string): (n: nat)
    ensures n <= |s|
    ensures forall i :: 0 <= i < n ==> IsSpace(s[i])
    ensures n < |s| ==> !IsSpace(s[n])
  {
    if s == [] || !IsSpace(s[0]) then 0 else 1 + LeadingSpace(s[1..])
  }

  /** The number of whitespace characters that close `s`. */
  function TrailingSpace(s: string): (n: nat)
    ensures n <= |s|
    ensures forall i :: |s| - n <= i < |s| ==> IsSpace(s[i])
    ensures n < |s| ==> !IsSpace(s[|s| - n - 1])
  {
    if s == [] || !IsSpace(s[|s| - 1]) then 0 else 1 + TrailingSpace(s[..|s| - 1])
  }

  /** `str.strip()`: `s` without its leading and trailing whitespace. */
  function Strip(s: string): (r: string)
    ensures LeadingSpace(s) + |r| <= |s| && r == s[LeadingSpace(s)..LeadingSpace(s) + |r|]
    ensures forall i :: LeadingSpace(s) + |r| <= i < |s| ==> IsSpace(s[i])
    ensures r != [] ==> !IsSpace(r[0]) && !IsSpace(r[|r| - 1])
  {
    var t := s[LeadingSpace(s)..];
    t[..|t| - TrailingSpace(t)]
  }

  /** Stripping twice strips nothing more. */
  lemma StripIdempotent(s: string)
    ensures Strip(Strip(s)) == Strip(s)
  {
  }

  /** `str.find` for one character: the first index of `c`, or -1. */
  function Find(s: string, c: char): (i: int)
    ensures -1 <= i < |s|
    ensures i == -1 <==> c !in s
    ensures 0 <= i ==> s[i] == c && c !in s[..i]
  {
    if s == [] then -1
    else if s[0] == c then 0
    else
      var j := Find(s[1..], c);
      assert s == [s[0]] + s[1..];
      if j == -1 then -1
      else
        assert s[..j + 1] == [s[0]] + s[1..][..j];
        j + 1
  }

  /** `str.rfind` for one character: the last index of `c`, or -1. */
  function RFind(s: string, c: char): (i: int)
    ensures -1 <= i < |s|
    ensures i == -1 <==> c !in s
    ensures 0 <= i ==> s[i] == c && c !in s[i + 1..]
  {
    if s == [] then -1
    else if s[|s| - 1] == c then |s| - 1
    else
      var s' := s[..|s| - 1];
      var j := RFind(s', c);
      assert s == s' + [s[|s| - 1]];
      if j == -1 then -1
      else
        assert s[j + 1..] == s'[j + 1..] + [s[|s| - 1]];
        j
  }

  /** The JSON span of `text`: `None` when it lacks a `{` or a `}`
      (the handler then raises "No JSON found in response"); otherwise the
      Python slice from the first `{` up to and including the last `}`. */
  function JsonSpan(text: string): (span: Option<string>)
  {
    var start := Find(text, '{');
    var end := RFind(text, '}') + 1;
    if start == -1 || end == 0 then None
    else if start < end then Some(text[start..end])
    else Some("")
  }

  /** The span is missing exactly when the text lacks a `{` or a `}`. */
  lemma JsonSpanMissing(text: string)
    ensures JsonSpan(text).None? <==> '{' !in text || '}' !in text
  {
  }

  /** A span that is there is empty exactly when the last `}` comes before
      the first `{`. */
  lemma JsonSpanEmpty(text: string)
    requires JsonSpan(text).Some?
    ensures JsonSpan(text).value == "" <==> RFind(text, '}') < Find(text, '{')
  {
  }

  /** A non-empty span runs from the first `{` through the last `}`: it
      opens with `{`, closes with `}`, and the text has no `{` before it and
      no `}` after it. */
  lemma JsonSpanBraces(text: string)
    requires JsonSpan(text).Some? && JsonSpan(text).value != ""
    ensures var span, first := JsonSpan(text).value, Find(text, '{');
      && 0 <= first && first + |span| <= |text|
      && span == text[first..first + |span|]
      && span[0] == '{' && span[|span| - 1] == '}'
      && '{' !in text[..first] && '}' !in text[first + |span|..]
  {
    var first, last := Find(text, '{'), RFind(text, '}');
    assert text[first..last + 1][0] == text[first];
  }

  /** The `try` block of `schematic()` up to the JSON parser: the span
      handed to `json.loads`, or `None` where the handler raises. */
  method ExtractJson(blocks: seq<Block>) returns (span: Option<string>)
    ensures span == JsonSpan(Strip(TextOf(blocks)))
  {
    var text := JoinText(blocks);
    text := Strip(text);
    span := JsonSpan(text);
  }
}
