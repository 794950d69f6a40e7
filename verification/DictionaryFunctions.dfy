/**
 Functions on AVP values (dictionary_functions.c): the Time type of section 4.3.1 of RFC 6733, an NTP timestamp of
 four octets mapped to a 64-bit time_t, and the check that a string contains given characters in order.
 */
module DictionaryFunctions {

  import opened Arithmetic
  import opened Bytes
  import opened Lists

  // ---- Time ----

  /** Seconds from 1900, the origin of NTP, to 1970, the origin of time_t. */
  const DIFF_EPOCH_TO_NTP := (365 * (1970 - 1900) + 17) * 24 * 60 * 60

  const TWO31 := 0x8000_0000
  const TWO32 := 0x1_0000_0000
  const TWO64 := 0x1_0000_0000_0000_0000

  type Time = x: int | -0x8000_0000_0000_0000 <= x < 0x8000_0000_0000_0000

  /** Octets as a number, the first one highest. */
  function Value(s: seq<Byte>): nat {
    if s == [] then 0 else Value(s[..|s| - 1]) * 0x100 + s[|s| - 1]
  }

  /** The n lowest octets of a number. */
  function Octets(v: nat, n: nat): (s: seq<Byte>)
    ensures |s| == n
  {
    if n == 0 then [] else Octets(v / 0x100, n - 1) + [v % 0x100]
  }

  /** For four octets these are the shifts and masks of the source. */
  lemma FourOctets(s: seq<Byte>)
    requires |s| == 4
    ensures Value(s) == 0x100_0000 * (s[0] as int) + 0x1_0000 * (s[1] as int) + 0x100 * (s[2] as int) + s[3]
    ensures Value(s) < TWO32 && (s[0] < 0x80 <==> Value(s) < TWO31)
  {
    var t := s[..3];
    var u := t[..2];
    var w := u[..1];
    assert Value(w) == Value([]) * 0x100 + w[0] by {
      assert w[..0] == [];
    }
    assert Value(u) == Value(w) * 0x100 + u[1];
    assert Value(t) == Value(u) * 0x100 + t[2];
  }

  lemma {:induction false} OctetsOfValue(s: seq<Byte>)
    ensures Octets(Value(s), |s|) == s
  {
    if s != [] {
      var init, last := s[..|s| - 1], s[|s| - 1];
      OctetsOfValue(init);
      DivModUnique(Value(s), 0x100, Value(init), last);
      assert s == init + [last];
    }
  }

  function Power(n: nat): nat {
    if n == 0 then 1 else 0x100 * Power(n - 1)
  }

  lemma {:induction false} ValueOfOctets(v: nat, n: nat)
    requires v < Power(n)
    ensures Value(Octets(v, n)) == v
  {
    if n > 0 {
      var init := Octets(v / 0x100, n - 1);
      ValueOfOctets(v / 0x100, n - 1);
      assert Octets(v, n)[..n - 1] == init;
    }
  }

  /** diameter_string_to_time_t: values before 1968 are taken as after 2036. */
  function Decode(s: seq<Byte>): Option<Time> {
    if |s| != 4 then None
    else
      FourOctets(s);
      var t := Value(s) - DIFF_EPOCH_TO_NTP;
      Some(if s[0] < 0x80 then t + TWO32 else t)
  }

  /** The 32 bits that time_t_to_diameter_string keeps; the arithmetic is on 64 bits, unsigned. */
  function Stamp(t: Time): (v: nat)
    ensures v < TWO32
  {
    var out := (t + DIFF_EPOCH_TO_NTP) % TWO64;
    if out >= TWO32 then (out - TWO32) % TWO31 else out
  }

  /** time_t_to_diameter_string: its last check can not fail, since the mask clears all high bits too. */
  function Encode(t: Time): (s: seq<Byte>)
    ensures |s| == 4
  {
    Octets(Stamp(t), 4)
  }

  /** Decoding is by the number alone, and gives times from 1968 to 2104. */
  lemma DecodedValue(s: seq<Byte>)
    requires |s| == 4
    ensures var d, v := Decode(s).value + 2208988800, Value(s);
            d == (if v < TWO31 then v + TWO32 else v) && v < TWO32 && TWO31 <= d < TWO32 + TWO31
  {
    FourOctets(s);
  }

  /** In the range of the format nothing wraps around. */
  lemma StampInRange(t: Time)
    requires TWO31 <= t + 2208988800 < TWO32 + TWO31
    ensures Stamp(t) == if t + 2208988800 < TWO32 then t + 2208988800 else t + 2208988800 - TWO32
  {
  }

  /** Encoding a decoded value gives back the same octets, for every string of four octets. */
  lemma EncodeDecode(s: seq<Byte>)
    requires |s| == 4
    ensures Encode(Decode(s).value) == s
  {
    StampOfDecoded(s);
    OctetsOfValue(s);
  }

  lemma StampOfDecoded(s: seq<Byte>)
    requires |s| == 4
    ensures Stamp(Decode(s).value) == Value(s)
  {
    DecodedValue(s);
    StampInRange(Decode(s).value);
  }

  lemma EncodedValue(t: Time)
    ensures Value(Encode(t)) == Stamp(t)
  {
    assert Power(4) == 0x100 * Power(3);
    assert Power(2) == 0x100 * Power(1);
    ValueOfOctets(Stamp(t), 4);
  }

  /** Decoding an encoded time gives it back exactly in the range of the format. */
  lemma DecodeEncode(t: Time)
    ensures Decode(Encode(t)) == Some(t) <==> 0x8000_0000 <= t + 2208988800 < 0x1_0000_0000 + 0x8000_0000
  {
    EncodedValue(t);
    DecodedValue(Encode(t));
    if TWO31 <= t + 2208988800 < TWO32 + TWO31 {
      StampInRange(t);
    }
  }

  lemma ModMultiple(a: int, k: int, h: int)
    requires h > 0
    ensures (a + k * h) % h == a % h
  {
    DivModUnique(a + k * h, h, a / h + k, a % h);
  }

  /** What every time is encoded as: itself, counted from 1900, if that fits in 32 bits; else its lowest 31 bits. */
  lemma EncodedAs(t: Time)
    ensures var u := t + 2208988800;
            Value(Encode(t)) == if 0 <= u < 0x1_0000_0000 then u else u % 0x8000_0000
  {
    EncodedValue(t);
    Wrapped(t);
    var u := t + 2208988800;
    if u < 0 || u >= TWO32 {
      var k := if u < 0 then 0x2_0000_0000 - 2 else -2;
      ModMultiple(u, k, TWO31);
    }
  }

  /** The addition on 64 bits wraps around exactly for times before 1900. */
  lemma Wrapped(t: Time)
    ensures var u := t + 2208988800; (t + DIFF_EPOCH_TO_NTP) % TWO64 == if u < 0 then u + TWO64 else u
  {
    var u := t + 2208988800;
    DivModUnique(u, TWO64, if u < 0 then -1 else 0, if u < 0 then u + TWO64 else u);
  }

  // ---- Characters in order ----

  /** The characters p[i..] occur in s[j..], in this order. */
  ghost predicate OccursFrom(p: seq<Byte>, i: nat, s: seq<Byte>, j: nat)
    decreases |s| - j
  {
    || i >= |p|
    || (j < |s| && ((p[i] == s[j] && OccursFrom(p, i + 1, s, j + 1)) || OccursFrom(p, i, s, j + 1)))
  }

  /** The positions f, from j on and increasing, are those of p[i..] in s. */
  ghost predicate Embeds(p: seq<Byte>, i: nat, s: seq<Byte>, j: nat, f: seq<nat>) {
    && i + |f| == |p|
    && (forall k :: 0 <= k < |f| ==> j <= f[k] < |s| && s[f[k]] == p[i + k])
    && (forall k, l :: 0 <= k < l < |f| ==> f[k] < f[l])
  }

  lemma {:induction false} OccursMeansEmbeds(p: seq<Byte>, i: nat, s: seq<Byte>, j: nat) returns (f: seq<nat>)
    requires i <= |p| && OccursFrom(p, i, s, j)
    ensures Embeds(p, i, s, j, f)
    decreases |s| - j
  {
    if i == |p| {
      f := [];
    } else if p[i] == s[j] && OccursFrom(p, i + 1, s, j + 1) {
      var g := OccursMeansEmbeds(p, i + 1, s, j + 1);
      f := [j] + g;
      assert forall k :: 0 < k < |f| ==> f[k] == g[k - 1];
    } else {
      f := OccursMeansEmbeds(p, i, s, j + 1);
    }
  }

  lemma {:induction false} EmbedsMeansOccurs(p: seq<Byte>, i: nat, s: seq<Byte>, j: nat, f: seq<nat>)
    requires Embeds(p, i, s, j, f)
    ensures OccursFrom(p, i, s, j)
    decreases |s| - j
  {
    if f != [] {
      if f[0] == j {
        assert forall k :: 0 <= k < |f[1..]| ==> f[1..][k] == f[k + 1];
        EmbedsMeansOccurs(p, i + 1, s, j + 1, f[1..]);
      } else {
        EmbedsMeansOccurs(p, i, s, j + 1, f);
      }
    }
  }

  lemma {:induction false} OccursLater(p: seq<Byte>, i: nat, s: seq<Byte>, j: nat)
    requires j < |s| && OccursFrom(p, i, s, j + 1)
    ensures OccursFrom(p, i, s, j)
  {
  }

  /** Taking the first match is never wrong. */
  lemma {:induction false} GreedyIsRight(p: seq<Byte>, i: nat, s: seq<Byte>, j: nat)
    requires i < |p| && OccursFrom(p, i, s, j)
    ensures j < |s| && OccursFrom(p, i + 1, s, j + 1)
    decreases |s| - j
  {
    if !(p[i] == s[j] && OccursFrom(p, i + 1, s, j + 1)) {
      GreedyIsRight(p, i, s, j + 1);
      OccursLater(p, i + 1, s, j + 1);
    }
  }

  /** fd_dictfct_CharInOS_check. */
  method CharInOs(p: seq<Byte>, s: seq<Byte>) returns (ok: bool)
    ensures ok <==> OccursFrom(p, 0, s, 0)
  {
    var c, i := 0, 0;
    while c < |p|
      invariant c <= |p| && i <= |s| && OccursFrom(p, 0, s, 0) == OccursFrom(p, c, s, i)
      decreases |s| - i, |p| - c
    {
      var found, start := false, i;
      while i < |s| && !found
        invariant c <= |p| && i <= |s| && OccursFrom(p, 0, s, 0) == OccursFrom(p, c, s, i)
        invariant (!found ==> c < |p|) && (found ==> start < i)
        decreases |s| - i
      {
        if p[c] == s[i] {
          if OccursFrom(p, c, s, i) {
            GreedyIsRight(p, c, s, i);
          }
          c := c + 1;
          found := true;
        }
        i := i + 1;
      }
      if i >= |s| {
        break;
      }
    }
    ok := c == |p|;
  }
}
