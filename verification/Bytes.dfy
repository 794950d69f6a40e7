/** Octet strings, and their comparison without case. */
module Bytes {

  type Byte = x: int | 0 <= x < 256

  /** tolower, in the C locale. */
  function Lower(c: Byte): Byte {
    if 65 <= c <= 90 then c + 32 else c
  }

  /** Only the letters A to Z change, each to the small letter with its place in the alphabet. */
  lemma LowerMeaning(c: Byte)
    ensures Lower(c) == c <==> !(65 <= c <= 90)
    ensures 65 <= c <= 90 ==> 97 <= Lower(c) <= 122 && Lower(c) - 97 == c - 65
  {
  }

  function AllLower(s: seq<Byte>): seq<Byte> {
    if s == [] then [] else [Lower(s[0])] + AllLower(s[1..])
  }
}
