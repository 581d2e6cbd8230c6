/** Bytes, the one that ends a line, and Python's strings, which are code points. */
module Bytes {
  type Byte = n: nat | n < 256

  const NEWLINE: Byte := 10

  /** Lone surrogates are code points too. */
  type CodePoint = c: nat | c <= 0x10FFFF
  type Text = seq<CodePoint>

  /** A Dafny string is the text of its characters, none of which is a surrogate. */
  function Points(s: string): Text { seq(|s|, i requires 0 <= i < |s| => s[i] as nat) }
}
