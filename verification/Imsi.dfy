/**
 The IMSI in the Create Session Request (s2a_interface.cpp): up to 15 characters in eight octets, two to an octet,
 the low half first, filled up with 1111 (section 8.3 of 3GPP TS 29.274). The characters are not looked at: what the
 subscriber sent as a user name is packed whether it consists of digits or not.
 */
module Imsi {

  const ZERO: bv8 := 48
  const FILLER: bv8 := 15
  const MAX_DIGITS := 15

  /** Two halves in an octet; with more than four bits in `low`, its upper ones are mixed into those of `high`. */
  function Octet(high: bv8, low: bv8): bv8 {
    (high << 4) | low
  }

  function Kept(imsi: seq<bv8>): seq<bv8> {
    if |imsi| > MAX_DIGITS then imsi[..MAX_DIGITS] else imsi
  }

  /** What is packed for the k-th place: the character less '0', as an unsigned byte, or the filler. */
  function Value(imsi: seq<bv8>, k: nat): bv8 {
    if k < |Kept(imsi)| then imsi[k] - ZERO else FILLER
  }

  /** The octets of encode_imsi_bcd. */
  ghost predicate Encodes(p: seq<bv8>, imsi: seq<bv8>) {
    |p| == 8 && forall i :: 0 <= i < 8 ==> p[i] == Octet(Value(imsi, 2 * i + 1), Value(imsi, 2 * i))
  }

  /** encode_imsi_bcd. */
  method Encode(imsi: seq<bv8>) returns (packed: array<bv8>)
    ensures fresh(packed) && Encodes(packed[..], imsi)
  {
    packed := new bv8[8](_ => 0);
    var len := if |imsi| > 15 then 15 else |imsi|;
    var i := 0;
    while i < 8
      invariant 0 <= i <= 8
      invariant forall j :: 0 <= j < i ==> packed[j] == Octet(Value(imsi, 2 * j + 1), Value(imsi, 2 * j))
    {
      var low: bv8 := if i * 2 < len then imsi[i * 2] - ZERO else 0x0f;
      var high: bv8 := if i * 2 + 1 < len then imsi[i * 2 + 1] - ZERO else 0x0f;
      packed[i] := (high << 4) | low;
      i := i + 1;
    }
  }

  // ---- Reading it back ----

  predicate IsDigit(c: bv8) {
    ZERO <= c < ZERO + 10
  }

  predicate AllDigits(imsi: seq<bv8>) {
    forall k :: 0 <= k < |imsi| ==> IsDigit(imsi[k])
  }

  function LowHalf(octet: bv8): bv8 {
    octet & 0x0f
  }

  function HighHalf(octet: bv8): bv8 {
    octet >> 4
  }

  function HalfOf(p: seq<bv8>, k: nat): bv8
    requires |p| == 8 && k < 16
  {
    if k % 2 == 0 then LowHalf(p[k / 2]) else HighHalf(p[k / 2])
  }

  /** The digits from the k-th on, up to the filler. */
  function Decode(p: seq<bv8>, k: nat): (s: seq<bv8>)
    requires |p| == 8 && k <= 16
    ensures AllDigits(s)
    decreases 16 - k
  {
    if k == 16 || HalfOf(p, k) >= 10 then [] else [ZERO + HalfOf(p, k)] + Decode(p, k + 1)
  }

  /** Two values of four bits can be told apart again. */
  lemma HalvesOf(high: bv8, low: bv8)
    requires high <= FILLER && low <= FILLER
    ensures HighHalf(Octet(high, low)) == high && LowHalf(Octet(high, low)) == low
  {
  }

  /** The filler on top of an octet stays, whatever is below. */
  lemma FillerStays(low: bv8)
    ensures HighHalf(Octet(FILLER, low)) == FILLER
  {
  }

  lemma DigitValue(c: bv8)
    requires IsDigit(c)
    ensures c - ZERO < 10 && ZERO + (c - ZERO) == c
  {
  }

  lemma ValueOfDigits(imsi: seq<bv8>, k: nat)
    requires AllDigits(imsi)
    ensures if k < |Kept(imsi)| then Value(imsi, k) < 10 && ZERO + Value(imsi, k) == imsi[k]
            else Value(imsi, k) == FILLER
  {
    if k < |Kept(imsi)| {
      DigitValue(imsi[k]);
    }
  }

  lemma HalvesAre(p: seq<bv8>, imsi: seq<bv8>, k: nat)
    requires Encodes(p, imsi) && AllDigits(imsi) && k < 16
    ensures HalfOf(p, k) == Value(imsi, k)
  {
    var i := k / 2;
    ValueOfDigits(imsi, 2 * i);
    ValueOfDigits(imsi, 2 * i + 1);
    assert p[i] == Octet(Value(imsi, 2 * i + 1), Value(imsi, 2 * i));
    HalvesOf(Value(imsi, 2 * i + 1), Value(imsi, 2 * i));
  }

  lemma {:induction false} DecodesFrom(p: seq<bv8>, imsi: seq<bv8>, k: nat)
    requires Encodes(p, imsi) && AllDigits(imsi) && k <= |Kept(imsi)|
    ensures Decode(p, k) == Kept(imsi)[k..]
    decreases 16 - k
  {
    HalvesAre(p, imsi, k);
    ValueOfDigits(imsi, k);
    if k < |Kept(imsi)| {
      DecodesFrom(p, imsi, k + 1);
      assert Kept(imsi)[k..] == [imsi[k]] + Kept(imsi)[k + 1..];
    }
  }

  lemma {:induction false} AtMost(p: seq<bv8>, k: nat)
    requires |p| == 8 && k <= 15 && HalfOf(p, 15) == FILLER
    ensures |Decode(p, k)| <= 15 - k
    decreases 15 - k
  {
    if k < 15 {
      AtMost(p, k + 1);
    }
  }

  /**
   The IMSI is read back exactly when it consists of at most 15 digits; of more digits, the first 15 are kept. With
   any other character in it, what is read back is something else.
   */
  lemma RoundTrip(p: seq<bv8>, imsi: seq<bv8>)
    requires Encodes(p, imsi)
    ensures Decode(p, 0) == imsi <==> AllDigits(imsi) && |imsi| <= MAX_DIGITS
    ensures AllDigits(imsi) ==> Decode(p, 0) == Kept(imsi)
  {
    if AllDigits(imsi) {
      DecodesFrom(p, imsi, 0);
    }
    FillerStays(Value(imsi, 14));
    AtMost(p, 0);
  }
}
