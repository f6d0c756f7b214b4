/** White space in strings. */
module Text {
  /** The characters with Unicode's White_Space property. */
  predicate IsSpace(c: char) {
    var code := c as int;
    || 0x09 <= code <= 0x0D || code == 0x20 || code == 0x85 || code == 0xA0 || code == 0x1680
    || 0x2000 <= code <= 0x200A || code == 0x2028 || code == 0x2029
    || code == 0x202F || code == 0x205F || code == 0x3000
  }

  predicate IsBlank(s: string) {
    forall i :: 0 <= i < |s| ==> IsSpace(s[i])
  }
}
