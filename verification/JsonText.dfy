/**
 JSON strings as section 7 of RFC 8259 defines them: the encoder with the escapes that Go chooses, a reader
 that knows nothing of the encoder, and UTF-8 by the arithmetic of RFC 3629. They show that the length
 computed in CaptureText.dfy is the length of a string from which the text can be read back.
 */
module JsonText {
  import opened Options
  import opened CaptureText

  const QUOTE: Byte := 0x22
  const BACKSLASH: Byte := 0x5C
  const REPLACEMENT := 0xFFFD

  // ---------------------------------------------------------------------------------------------
  // Characters
  // ---------------------------------------------------------------------------------------------

  datatype Rune = Rune(size: nat, code: int)

  predicate IsSurrogate(code: int) {
    0xD800 <= code < 0xE000
  }

  /** Six bits of each continuation byte, behind what is left of the first byte. */
  function Assemble(text: Line, size: nat, top: int): int
    requires size <= |text|
  {
    if size <= 1 then top else Assemble(text, size - 1, top) * 64 + (text[size - 1] as int - 0x80)
  }

  predicate Continues(text: Line, size: nat) {
    size <= |text| && forall i: nat :: 0 < i < size ==> 0x80 <= text[i] < 0xC0
  }

  /** The character that `text` starts with: in as few bytes as it takes, no surrogate, and up to U+10FFFF. */
  function FirstRune(text: Line): (r: Option<Rune>)
    requires text != []
    ensures r.Some? ==> 1 <= r.value.size <= |text|
  {
    var b := text[0];
    if b < 0x80 then Some(Rune(1, b))
    else if 0xC0 <= b < 0xE0 && Continues(text, 2) && Assemble(text, 2, b - 0xC0) >= 0x80 then
      Some(Rune(2, Assemble(text, 2, b - 0xC0)))
    else if 0xE0 <= b < 0xF0 && Continues(text, 3) && Assemble(text, 3, b - 0xE0) >= 0x800
            && !IsSurrogate(Assemble(text, 3, b - 0xE0)) then
      Some(Rune(3, Assemble(text, 3, b - 0xE0)))
    else if 0xF0 <= b < 0xF8 && Continues(text, 4) && 0x10000 <= Assemble(text, 4, b - 0xF0) <= 0x10FFFF then
      Some(Rune(4, Assemble(text, 4, b - 0xF0)))
    else None
  }

  /** The characters of a byte string; a byte that is part of none counts as U+FFFD. */
  function Characters(text: Line): seq<int> {
    if text == [] then []
    else
      match FirstRune(text)
      case Some(rune) => [rune.code] + Characters(text[rune.size..])
      case None => [REPLACEMENT] + Characters(text[1..])
  }

  lemma AssembledCode(text: Line, top: int)
    ensures |text| >= 2 ==> Assemble(text, 2, top) == top * 64 + text[1] - 0x80
    ensures |text| >= 3 ==> Assemble(text, 3, top) == (top * 64 + text[1] - 0x80) * 64 + text[2] - 0x80
    ensures |text| >= 4 ==>
              Assemble(text, 4, top) ==
              ((top * 64 + text[1] - 0x80) * 64 + text[2] - 0x80) * 64 + text[3] - 0x80
  {
    if |text| >= 2 {
      assert Assemble(text, 1, top) == top;
      if |text| >= 3 {
        assert Assemble(text, 3, top) == Assemble(text, 2, top) * 64 + (text[2] as int - 0x80);
      }
      if |text| >= 4 {
        assert Assemble(text, 4, top) == Assemble(text, 3, top) * 64 + (text[3] as int - 0x80);
      }
    }
  }

  lemma ContinuesAt(text: Line)
    requires text != []
    ensures Continues(text, 2) <==> |text| >= 2 && IsContinuation(text[1])
    ensures Continues(text, 3) <==> |text| >= 3 && IsContinuation(text[1]) && IsContinuation(text[2])
    ensures Continues(text, 4) <==>
              |text| >= 4 && IsContinuation(text[1]) && IsContinuation(text[2]) && IsContinuation(text[3])
  {
  }

  /** The table of first and second bytes finds the sequences that the arithmetic allows. */
  lemma TableIsUtf8(text: Line)
    requires text != []
    ensures SequenceLength(text) == if FirstRune(text).Some? then FirstRune(text).value.size else 0
  {
    ContinuesAt(text);
    AssembledCode(text, text[0] as int - 0xC0);
    AssembledCode(text, text[0] as int - 0xE0);
    AssembledCode(text, text[0] as int - 0xF0);
  }

  // ---------------------------------------------------------------------------------------------
  // Writing
  // ---------------------------------------------------------------------------------------------

  function HexDigit(n: int): Byte
    requires 0 <= n < 16
  {
    if n < 10 then 0x30 + n else 0x61 + n - 10
  }

  /** A backslash, `u`, and four digits. */
  function Numeric(code: int): Line
    requires 0 <= code < 0x10000
  {
    [BACKSLASH, 0x75, HexDigit(code / 4096), HexDigit(code / 256 % 16), HexDigit(code / 16 % 16), HexDigit(code % 16)]
  }

  function EncodeAscii(b: Byte): Line {
    if b == QUOTE || b == BACKSLASH then [BACKSLASH, b]
    else if b == 0x08 then [BACKSLASH, 0x62]
    else if b == 0x0C then [BACKSLASH, 0x66]
    else if b == 0x0A then [BACKSLASH, 0x6E]
    else if b == 0x0D then [BACKSLASH, 0x72]
    else if b == 0x09 then [BACKSLASH, 0x74]
    else if b < 0x20 || b == 0x3C || b == 0x3E || b == 0x26 then Numeric(b)
    else [b]
  }

  function EncodeRune(text: Line, rune: Rune): Line
    requires text != [] && rune.size <= |text|
  {
    if rune.size == 1 then EncodeAscii(text[0])
    else if rune.code == 0x2028 || rune.code == 0x2029 then Numeric(rune.code)
    else text[..rune.size]
  }

  function EncodeFirst(text: Line): Line
    requires text != []
  {
    match FirstRune(text)
    case Some(rune) => EncodeRune(text, rune)
    case None => Numeric(REPLACEMENT)
  }

  function FirstSize(text: Line): (n: nat)
    requires text != []
    ensures 1 <= n <= |text|
  {
    match FirstRune(text)
    case Some(rune) => rune.size
    case None => 1
  }

  /** The JSON string for `text`, without its quotes. */
  function Encode(text: Line): Line {
    if text == [] then [] else EncodeFirst(text) + Encode(text[FirstSize(text)..])
  }

  lemma LineSeparatorCode(text: Line)
    requires |text| >= 3 && FirstRune(text).Some? && FirstRune(text).value.size == 3
    ensures IsLineSeparator(text) <==> FirstRune(text).value.code == 0x2028 || FirstRune(text).value.code == 0x2029
  {
    ContinuesAt(text);
    AssembledCode(text, text[0] as int - 0xE0);
  }

  lemma FirstRuneIsToken(text: Line)
    requires text != []
    ensures FirstToken(text) == Token(FirstSize(text), |EncodeFirst(text)|)
  {
    TableIsUtf8(text);
    if FirstRune(text).Some? && FirstRune(text).value.size == 3 {
      LineSeparatorCode(text);
    }
    if FirstRune(text).Some? {
      RuneOfFewBytes(text);
    }
  }

  /** Only sequences of three bytes are escaped as a whole. */
  lemma RuneOfFewBytes(text: Line)
    requires text != [] && FirstRune(text).Some?
    ensures
      var rune := FirstRune(text).value;
      rune.size in {2, 4} ==> rune.code != 0x2028 && rune.code != 0x2029
    ensures FirstRune(text).value.size == 1 <==> text[0] < 0x80
  {
    ContinuesAt(text);
    AssembledCode(text, text[0] as int - 0xC0);
    AssembledCode(text, text[0] as int - 0xF0);
  }

  /** The computed length is that of the encoding. */
  lemma {:induction false} LengthIsEncoded(text: Line)
    ensures |Encode(text)| == EncodedLength(text)
  {
    if text != [] {
      FirstRuneIsToken(text);
      LengthIsEncoded(text[FirstSize(text)..]);
    }
  }

  // ---------------------------------------------------------------------------------------------
  // Reading
  // ---------------------------------------------------------------------------------------------

  function HexValue(b: Byte): Option<int> {
    if 0x30 <= b < 0x3A then Some(b - 0x30)
    else if 0x41 <= b < 0x47 then Some(b - 0x41 + 10)
    else if 0x61 <= b < 0x67 then Some(b - 0x61 + 10)
    else None
  }

  /** The number behind `\u`. */
  function ReadHex(s: Line): Option<int> {
    if |s| < 4 then None
    else
      match (HexValue(s[0]), HexValue(s[1]), HexValue(s[2]), HexValue(s[3]))
      case (Some(a), Some(b), Some(c), Some(d)) => Some(((a * 16 + b) * 16 + c) * 16 + d)
      case _ => None
  }

  function ShortEscape(b: Byte): Option<int> {
    if b == QUOTE || b == BACKSLASH || b == 0x2F then Some(b)
    else if b == 0x62 then Some(0x08)
    else if b == 0x66 then Some(0x0C)
    else if b == 0x6E then Some(0x0A)
    else if b == 0x72 then Some(0x0D)
    else if b == 0x74 then Some(0x09)
    else None
  }

  /** The escape that `s` starts with; a character beyond U+FFFF takes two. */
  function ReadEscape(s: Line): (r: Option<Rune>)
    requires s != []
    ensures r.Some? ==> 1 <= r.value.size <= |s|
  {
    if |s| < 2 then None
    else if s[1] != 0x75 then
      match ShortEscape(s[1])
      case Some(code) => Some(Rune(2, code))
      case None => None
    else
      match ReadHex(s[2..])
      case None => None
      case Some(code) =>
        if !IsSurrogate(code) then Some(Rune(6, code))
        else if code >= 0xDC00 || |s| < 8 || s[6] != BACKSLASH || s[7] != 0x75 then None
        else
          match ReadHex(s[8..])
          case None => None
          case Some(low) =>
            if 0xDC00 <= low < 0xE000 then Some(Rune(12, 0x10000 + (code - 0xD800) * 1024 + (low - 0xDC00))) else None
  }

  function ReadFirst(s: Line): (r: Option<Rune>)
    requires s != []
    ensures r.Some? ==> 1 <= r.value.size <= |s|
  {
    if s[0] == BACKSLASH then ReadEscape(s)
    else if s[0] == QUOTE || s[0] < 0x20 then None
    else FirstRune(s)
  }

  /** The characters of what stands between the quotes, or None if that is no JSON string. */
  function Read(s: Line): Option<seq<int>> {
    if s == [] then Some([])
    else
      match ReadFirst(s)
      case None => None
      case Some(rune) =>
        match Read(s[rune.size..])
        case None => None
        case Some(rest) => Some([rune.code] + rest)
  }

  lemma HexDigitIsRead(n: int)
    requires 0 <= n < 16
    ensures HexValue(HexDigit(n)) == Some(n)
  {
  }

  lemma FourDigits(code: int)
    requires 0 <= code < 0x10000
    ensures 0 <= code / 4096 < 16
    ensures ((code / 4096 * 16 + code / 256 % 16) * 16 + code / 16 % 16) * 16 + code % 16 == code
  {
    var a, b, c := code / 16, code / 256, code / 4096;
    assert a / 16 == b && b / 16 == c;
  }

  lemma HexIsRead(a: int, b: int, c: int, d: int, s: Line)
    requires 0 <= a < 16 && 0 <= b < 16 && 0 <= c < 16 && 0 <= d < 16 && |s| >= 4
    requires s[0] == HexDigit(a) && s[1] == HexDigit(b) && s[2] == HexDigit(c) && s[3] == HexDigit(d)
    ensures ReadHex(s) == Some(((a * 16 + b) * 16 + c) * 16 + d)
  {
    HexDigitIsRead(a);
    HexDigitIsRead(b);
    HexDigitIsRead(c);
    HexDigitIsRead(d);
  }

  lemma NumericIsRead(code: int, rest: Line)
    requires 0 <= code < 0x10000 && !IsSurrogate(code)
    ensures ReadFirst(Numeric(code) + rest) == Some(Rune(6, code))
  {
    var s := Numeric(code) + rest;
    assert forall k: nat :: k < 4 ==> s[2..][k] == Numeric(code)[2 + k];
    FourDigits(code);
    HexIsRead(code / 4096, code / 256 % 16, code / 16 % 16, code % 16, s[2..]);
    assert ReadHex(s[2..]) == Some(code);
  }

  lemma AsciiIsRead(b: Byte, rest: Line)
    requires b < 0x80
    ensures ReadFirst(EncodeAscii(b) + rest) == Some(Rune(|EncodeAscii(b)|, b))
  {
    if EncodeAscii(b) == Numeric(b) {
      NumericIsRead(b, rest);
    }
  }

  /** What follows a sequence does not matter to it. */
  lemma RuneStandsAlone(text: Line, rest: Line)
    requires text != [] && FirstRune(text).Some?
    ensures
      var n := FirstRune(text).value.size;
      |text[..n] + rest| > 0 && FirstRune(text[..n] + rest) == FirstRune(text)
  {
    var n := FirstRune(text).value.size;
    var s := text[..n] + rest;
    ContinuesAt(text);
    ContinuesAt(s);
    assert forall i: nat :: i < n ==> s[i] == text[i];
    AssembledCode(text, text[0] as int - 0xC0);
    AssembledCode(text, text[0] as int - 0xE0);
    AssembledCode(text, text[0] as int - 0xF0);
    AssembledCode(s, text[0] as int - 0xC0);
    AssembledCode(s, text[0] as int - 0xE0);
    AssembledCode(s, text[0] as int - 0xF0);
  }

  lemma FirstIsRead(text: Line, rest: Line)
    requires text != []
    ensures
      var code := if FirstRune(text).Some? then FirstRune(text).value.code else REPLACEMENT;
      |EncodeFirst(text) + rest| > 0
      && ReadFirst(EncodeFirst(text) + rest) == Some(Rune(|EncodeFirst(text)|, code))
  {
    match FirstRune(text)
    case None => NumericIsRead(REPLACEMENT, rest);
    case Some(rune) =>
      RuneOfFewBytes(text);
      if rune.size == 1 {
        AsciiIsRead(text[0], rest);
      } else if rune.code == 0x2028 || rune.code == 0x2029 {
        NumericIsRead(rune.code, rest);
      } else {
        RuneStandsAlone(text, rest);
      }
  }

  /** What is read from the encoding is the text, with U+FFFD for the bytes that are no characters. */
  lemma {:induction false} EncodingIsRead(text: Line)
    ensures Read(Encode(text)) == Some(Characters(text))
  {
    if text != [] {
      var rest := Encode(text[FirstSize(text)..]);
      FirstIsRead(text, rest);
      assert (EncodeFirst(text) + rest)[|EncodeFirst(text)|..] == rest;
      EncodingIsRead(text[FirstSize(text)..]);
    }
  }

  /** Bytes that would need an escape in a JSON string, or that mean something to HTML. */
  predicate IsPlain(b: Byte) {
    b >= 0x20 && b != 0x3C && b != 0x3E && b != 0x26
  }

  lemma FirstIsPlain(text: Line, i: nat)
    requires text != [] && i < |EncodeFirst(text)|
    ensures IsPlain(EncodeFirst(text)[i])
  {
    ContinuesAt(text);
  }

  /** The encoding has no control byte, and none of < > and &. */
  lemma {:induction false} EncodingIsPlain(text: Line, i: nat)
    requires i < |Encode(text)|
    ensures IsPlain(Encode(text)[i])
  {
    var n := |EncodeFirst(text)|;
    if i < n {
      FirstIsPlain(text, i);
    } else {
      EncodingIsPlain(text[FirstSize(text)..], i - n);
    }
  }

  // ---------------------------------------------------------------------------------------------
  // UTF-8
  // ---------------------------------------------------------------------------------------------

  predicate IsScalar(code: int) {
    0 <= code <= 0x10FFFF && !IsSurrogate(code)
  }

  /** The bytes of one character. */
  function Utf8(code: int): Line
    requires IsScalar(code)
  {
    if code < 0x80 then [code]
    else if code < 0x800 then [0xC0 + code / 64, 0x80 + code % 64]
    else if code < 0x10000 then [0xE0 + code / 4096, 0x80 + code / 64 % 64, 0x80 + code % 64]
    else [0xF0 + code / 262144, 0x80 + code / 4096 % 64, 0x80 + code / 64 % 64, 0x80 + code % 64]
  }

  function Write(codes: seq<int>): Line
    requires forall i: nat :: i < |codes| ==> IsScalar(codes[i])
  {
    if codes == [] then [] else Utf8(codes[0]) + Write(codes[1..])
  }

  /** Every byte belongs to a character. */
  predicate IsUtf8(text: Line) {
    text == [] || (FirstRune(text).Some? && IsUtf8(text[FirstRune(text).value.size..]))
  }

  lemma TwoBytes(a: int, b: int)
    requires 2 <= a < 32 && 0 <= b < 64
    ensures Utf8(a * 64 + b) == [0xC0 + a, 0x80 + b]
  {
  }

  lemma ThreeBytes(a: int, b: int, c: int)
    requires 0 <= a < 16 && 0 <= b < 64 && 0 <= c < 64
    requires 0x800 <= (a * 64 + b) * 64 + c && !IsSurrogate((a * 64 + b) * 64 + c)
    ensures Utf8((a * 64 + b) * 64 + c) == [0xE0 + a, 0x80 + b, 0x80 + c]
  {
    var code := (a * 64 + b) * 64 + c;
    assert code / 4096 == a && code / 64 == a * 64 + b && code % 64 == c;
  }

  lemma FourBytes(a: int, b: int, c: int, d: int)
    requires 0 <= a < 8 && 0 <= b < 64 && 0 <= c < 64 && 0 <= d < 64
    requires 0x10000 <= ((a * 64 + b) * 64 + c) * 64 + d <= 0x10FFFF
    ensures Utf8(((a * 64 + b) * 64 + c) * 64 + d) == [0xF0 + a, 0x80 + b, 0x80 + c, 0x80 + d]
  {
    var code := ((a * 64 + b) * 64 + c) * 64 + d;
    assert code / 262144 == a && code / 4096 == a * 64 + b && code / 64 == (a * 64 + b) * 64 + c && code % 64 == d;
  }

  lemma RuneIsWritten(text: Line)
    requires text != [] && FirstRune(text).Some?
    ensures
      var rune := FirstRune(text).value;
      IsScalar(rune.code) && Utf8(rune.code) == text[..rune.size]
  {
    ContinuesAt(text);
    var first, n := text[0] as int, FirstRune(text).value.size;
    if n == 2 {
      AssembledCode(text, first - 0xC0);
      TwoBytes(first - 0xC0, text[1] as int - 0x80);
    } else if n == 3 {
      AssembledCode(text, first - 0xE0);
      ThreeBytes(first - 0xE0, text[1] as int - 0x80, text[2] as int - 0x80);
    } else if n == 4 {
      AssembledCode(text, first - 0xF0);
      FourBytes(first - 0xF0, text[1] as int - 0x80, text[2] as int - 0x80, text[3] as int - 0x80);
    }
  }

  /** Text that is UTF-8 is its characters: nothing is lost by reading it as such. */
  lemma {:induction false} CharactersAreText(text: Line)
    ensures forall i: nat :: i < |Characters(text)| ==> IsScalar(Characters(text)[i])
    ensures IsUtf8(text) ==> Write(Characters(text)) == text
  {
    if text != [] {
      CharactersAreText(text[FirstSize(text)..]);
      if FirstRune(text).Some? {
        RuneIsWritten(text);
      }
    }
  }

  /** Different texts have different encodings, as long as they are UTF-8. */
  lemma EncodingIsUnique(a: Line, b: Line)
    requires IsUtf8(a) && IsUtf8(b) && Encode(a) == Encode(b)
    ensures a == b
  {
    EncodingIsRead(a);
    EncodingIsRead(b);
    CharactersAreText(a);
    CharactersAreText(b);
  }

  // ---------------------------------------------------------------------------------------------
  // What is escaped, and what is not
  // ---------------------------------------------------------------------------------------------

  /** The characters that JSON wants escaped, and those that Go escapes for the sake of HTML and JavaScript. */
  predicate NeedsEscape(code: int) {
    code < 0x20 || code in {0x22, 0x5C, 0x3C, 0x3E, 0x26, 0x2028, 0x2029}
  }

  predicate NoneNeedsEscape(codes: seq<int>) {
    forall i: nat :: i < |codes| ==> !NeedsEscape(codes[i])
  }

  lemma FirstIsKept(text: Line)
    requires text != [] && FirstRune(text).Some? && !NeedsEscape(FirstRune(text).value.code)
    ensures EncodeFirst(text) == text[..FirstSize(text)]
  {
    RuneOfFewBytes(text);
  }

  /** Escapes are used for nothing else. */
  lemma {:induction false} OthersAreKept(text: Line)
    requires IsUtf8(text) && NoneNeedsEscape(Characters(text))
    ensures Encode(text) == text
  {
    if text != [] {
      var rest := text[FirstSize(text)..];
      var codes := Characters(text);
      assert codes == [FirstRune(text).value.code] + Characters(rest);
      assert codes[0] == FirstRune(text).value.code && codes[1..] == Characters(rest);
      FirstIsKept(text);
      OthersAreKept(rest);
      assert text == text[..FirstSize(text)] + rest;
    }
  }

  /** Where JSON has a short escape, it is used. */
  lemma ShortEscapesAreUsed(b: Byte)
    requires b in {0x22, 0x5C, 0x08, 0x09, 0x0A, 0x0C, 0x0D}
    ensures |Encode([b])| == 2
  {
    assert Encode([b]) == EncodeAscii(b) + Encode([b][1..]);
  }

  /** The raw bytes of U+2028 or U+2029 at `i`. */
  predicate HasSeparatorAt(s: Line, i: nat) {
    i + 3 <= |s| && s[i] == 0xE2 && s[i + 1] == 0x80 && (s[i + 2] == 0xA8 || s[i + 2] == 0xA9)
  }

  lemma FirstHasNoSeparator(text: Line, rest: Line, i: nat)
    requires text != [] && i < |EncodeFirst(text)|
    ensures !HasSeparatorAt(EncodeFirst(text) + rest, i)
  {
    ContinuesAt(text);
    if FirstRune(text).Some? && FirstRune(text).value.size == 3 {
      LineSeparatorCode(text);
    }
  }

  /** No line separator of JavaScript is left as it is. */
  lemma {:induction false} EncodingHasNoSeparator(text: Line, i: nat)
    ensures !HasSeparatorAt(Encode(text), i)
  {
    if text != [] {
      var n := |EncodeFirst(text)|;
      var rest := Encode(text[FirstSize(text)..]);
      if i < n {
        FirstHasNoSeparator(text, rest, i);
      } else {
        assert (EncodeFirst(text) + rest)[n..] == rest;
        EncodingHasNoSeparator(text[FirstSize(text)..], i - n);
      }
    }
  }
}
