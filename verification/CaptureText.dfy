/**
 Captured terminal text: splitting it into lines, joining lines, and the length of the JSON string
 that Go's encoder makes of it.
 */
module CaptureText {
  type Byte = b: int | 0 <= b < 256

  type Line = seq<Byte>

  const NEWLINE: Byte := 10

  // ---------------------------------------------------------------------------------------------
  // Lines
  // ---------------------------------------------------------------------------------------------

  /** The lines with newlines between them. */
  function Join(lines: seq<Line>): Line {
    if lines == [] then []
    else if |lines| == 1 then lines[0]
    else lines[0] + [NEWLINE] + Join(lines[1..])
  }

  /** The pieces between newlines; there is always one. */
  function Split(text: Line): (lines: seq<Line>)
    ensures lines != []
  {
    if text == [] then [[]]
    else
      var rest := Split(text[1..]);
      if text[0] == NEWLINE then [[]] + rest else [[text[0]] + rest[0]] + rest[1..]
  }

  function TrimNewline(text: Line): Line {
    if text != [] && text[|text| - 1] == NEWLINE then text[..|text| - 1] else text
  }

  /** The lines of a capture; one final newline ends the last line rather than starting another. */
  function CaptureLines(content: Line): seq<Line> {
    if content == [] then [] else Split(TrimNewline(content))
  }

  ghost predicate IsLine(line: Line) {
    NEWLINE !in line
  }

  ghost predicate AreLines(lines: seq<Line>) {
    forall i: nat :: i < |lines| ==> IsLine(lines[i])
  }

  /** Splitting loses nothing and leaves no newline in any line. */
  lemma {:induction false} SplitThenJoin(text: Line)
    ensures Join(Split(text)) == text && AreLines(Split(text))
  {
    if text != [] {
      SplitThenJoin(text[1..]);
      var rest := Split(text[1..]);
      if text[0] == NEWLINE {
        assert ([[]] + rest)[1..] == rest;
      } else {
        var lines := [[text[0]] + rest[0]] + rest[1..];
        assert lines[1..] == rest[1..];
        if |rest| > 1 {
          assert Join(lines) == [text[0]] + Join(rest);
        }
      }
    }
  }

  /** Lines without newlines survive being joined and split again. */
  lemma {:induction false} JoinThenSplit(lines: seq<Line>)
    requires lines != [] && AreLines(lines)
    ensures Split(Join(lines)) == lines
  {
    assert IsLine(lines[0]);
    if |lines| == 1 {
      SplitLine(lines[0]);
    } else {
      JoinThenSplit(lines[1..]);
      SplitAtNewline(lines[0], Join(lines[1..]));
    }
  }

  lemma {:induction false} SplitLine(line: Line)
    requires IsLine(line)
    ensures Split(line) == [line]
  {
    if line != [] {
      assert line[0] in line && line == [line[0]] + line[1..];
      SplitLine(line[1..]);
    }
  }

  lemma {:induction false} SplitAtNewline(line: Line, text: Line)
    requires IsLine(line)
    ensures Split(line + [NEWLINE] + text) == [line] + Split(text)
  {
    var whole := line + [NEWLINE] + text;
    if line == [] {
      assert whole[1..] == text;
    } else {
      assert line[0] in line && line == [line[0]] + line[1..];
      assert whole[0] == line[0] && whole[1..] == line[1..] + [NEWLINE] + text;
      SplitAtNewline(line[1..], text);
    }
  }

  /**
   A capture is its lines joined, with or without a final newline. The one exception to the converse
   is the empty capture, which has no lines at all.
   */
  lemma CaptureRoundTrip(content: Line, lines: seq<Line>)
    requires AreLines(lines) && content != []
    ensures lines == CaptureLines(content) <==> lines != [] && Join(lines) == TrimNewline(content)
  {
    SplitThenJoin(TrimNewline(content));
    if lines != [] {
      JoinThenSplit(lines);
    }
  }

  lemma {:induction false} JoinEndsWithLast(lines: seq<Line>)
    requires lines != [] && lines[|lines| - 1] != []
    ensures Join(lines) != [] && Join(lines)[|Join(lines)| - 1] == lines[|lines| - 1][|lines[|lines| - 1]| - 1]
  {
    if |lines| > 1 {
      JoinEndsWithLast(lines[1..]);
    }
  }

  /** Lines with a newline behind each are captured as they are, and so are those without one behind the last. */
  lemma LinesAreCaptured(lines: seq<Line>)
    requires lines != [] && AreLines(lines)
    ensures CaptureLines(Join(lines) + [NEWLINE]) == lines
    ensures lines[|lines| - 1] != [] ==> CaptureLines(Join(lines)) == lines
    ensures CaptureLines([]) == []
  {
    var last := lines[|lines| - 1];
    JoinThenSplit(lines);
    assert (Join(lines) + [NEWLINE])[..|Join(lines)|] == Join(lines);
    if last != [] {
      JoinEndsWithLast(lines);
      assert IsLine(last) && last[|last| - 1] in last;
    }
  }

  // ---------------------------------------------------------------------------------------------
  // JSON strings (section 7 of RFC 8259, with the escapes that Go's encoder chooses)
  // ---------------------------------------------------------------------------------------------

  predicate IsContinuation(b: Byte) {
    0x80 <= b < 0xC0
  }

  /** The bytes that may follow the first byte of a sequence of three or four. */
  predicate MayFollow(first: Byte, second: Byte) {
    if first == 0xE0 then 0xA0 <= second < 0xC0
    else if first == 0xED then 0x80 <= second < 0xA0
    else if first == 0xF0 then 0x90 <= second < 0xC0
    else if first == 0xF4 then 0x80 <= second < 0x90
    else IsContinuation(second)
  }

  /** The length of the UTF-8 sequence that `text` starts with, or 0 if it starts with none. */
  function SequenceLength(text: Line): nat
    requires text != []
  {
    var first := text[0];
    if first < 0x80 then 1
    else if 0xC2 <= first < 0xE0 then
      if |text| >= 2 && IsContinuation(text[1]) then 2 else 0
    else if 0xE0 <= first < 0xF0 then
      if |text| >= 3 && MayFollow(first, text[1]) && IsContinuation(text[2]) then 3 else 0
    else if 0xF0 <= first < 0xF5 then
      if |text| >= 4 && MayFollow(first, text[1]) && IsContinuation(text[2]) && IsContinuation(text[3]) then 4 else 0
    else 0
  }

  /** What one ASCII character costs: 2 for a short escape, 6 for a numeric one, including < > and &. */
  function AsciiCost(b: Byte): nat {
    if b == 0x22 || b == 0x5C || b == 0x08 || b == 0x09 || b == 0x0A || b == 0x0C || b == 0x0D then 2
    else if b < 0x20 || b == 0x3C || b == 0x3E || b == 0x26 then 6
    else 1
  }

  /** U+2028 and U+2029, which are escaped although JSON does not require it. */
  predicate IsLineSeparator(text: Line)
    requires |text| >= 3
  {
    text[0] == 0xE2 && text[1] == 0x80 && (text[2] == 0xA8 || text[2] == 0xA9)
  }

  datatype Token = Token(size: nat, cost: nat)

  /** The first character of `text`; a byte that starts no sequence counts for itself and is replaced. */
  function FirstToken(text: Line): (t: Token)
    requires text != []
    ensures 1 <= t.size <= |text| && t.cost >= 1
  {
    var n := SequenceLength(text);
    if n == 0 then Token(1, 6)
    else if n == 1 then Token(1, AsciiCost(text[0]))
    else if n == 3 && IsLineSeparator(text) then Token(3, 6)
    else Token(n, n)
  }

  /** The length of the JSON string for `text`, without its quotes. */
  function EncodedLength(text: Line): nat {
    if text == [] then 0 else FirstToken(text).cost + EncodedLength(text[FirstToken(text).size..])
  }

  /** A newline never belongs to a longer sequence, so what precedes it is encoded as if it ended there. */
  lemma TokenStopsAtNewline(a: Line, b: Line)
    requires a != []
    ensures FirstToken(a + [NEWLINE] + b) == FirstToken(a)
  {
    var whole := a + [NEWLINE] + b;
    assert whole[0] == a[0] && whole[|a|] == NEWLINE;
    assert |a| > 1 ==> whole[1] == a[1];
    assert |a| > 2 ==> whole[2] == a[2];
    assert |a| > 3 ==> whole[3] == a[3];
  }

  /** The length of joined text is that of its parts and 2 for the newline. */
  lemma {:induction false} EncodedJoin(a: Line, b: Line)
    ensures EncodedLength(a + [NEWLINE] + b) == EncodedLength(a) + 2 + EncodedLength(b)
    decreases |a|
  {
    var whole := a + [NEWLINE] + b;
    if a == [] {
      assert whole[0] == NEWLINE && whole[1..] == b;
    } else {
      var n := FirstToken(a).size;
      TokenStopsAtNewline(a, b);
      assert whole[n..] == a[n..] + [NEWLINE] + b;
      EncodedJoin(a[n..], b);
    }
  }

  /** The JSON length of joined lines, line by line. */
  function EncodedLines(lines: seq<Line>): nat {
    if lines == [] then 0
    else EncodedLength(lines[0]) + (if |lines| == 1 then 0 else 2) + EncodedLines(lines[1..])
  }

  lemma {:induction false} EncodedLinesIsEncodedJoin(lines: seq<Line>)
    ensures EncodedLines(lines) == EncodedLength(Join(lines))
  {
    if |lines| > 1 {
      EncodedLinesIsEncodedJoin(lines[1..]);
      EncodedJoin(lines[0], Join(lines[1..]));
    }
  }

  /** The byte length of joined lines. */
  function JoinedLength(lines: seq<Line>): nat {
    if lines == [] then 0
    else |lines[0]| + (if |lines| == 1 then 0 else 1) + JoinedLength(lines[1..])
  }

  lemma {:induction false} JoinedLengthIsLengthOfJoin(lines: seq<Line>)
    ensures JoinedLength(lines) == |Join(lines)|
  {
    if |lines| > 1 {
      JoinedLengthIsLengthOfJoin(lines[1..]);
    }
  }
}
