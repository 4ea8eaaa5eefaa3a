/** What several parts of the signer share. */
module Common {

  datatype Option<+T> = None | Some(value: T)

  datatype Role = KSKRole | ZSKRole

  /** Unicode white space, as trimming a string removes it. */
  predicate Whitespace(c: char) {
    var n := c as int;
    || 9 <= n <= 13 || n == 0x20 || n == 0x85 || n == 0xA0 || n == 0x1680 || 0x2000 <= n <= 0x200a
    || n == 0x2028 || n == 0x2029 || n == 0x202f || n == 0x205f || n == 0x3000
  }

  /** Nothing is left of such a string once trimmed. */
  predicate Blank(s: string) { forall c <- s :: Whitespace(c) }
}
