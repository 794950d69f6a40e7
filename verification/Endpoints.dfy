/**
 The sorted list of endpoints of a peer (endpoints.c): addresses with a port, where port 0 stands for a port that
 is not known yet.
 */
module Endpoints {

  import opened Bytes
  import opened Lists

  const AF_INET := 2
  const AF_INET6 := 10

  /** A 32-bit mask, as the set of the bits that are set. */
  type Bit = x: int | 0 <= x < 32
  type Mask = set<Bit>

  const EP_ACCEPTALL: Mask := {15}

  type Port = x: int | 0 <= x < 0x10000

  /** A socket address, with its port as it is stored (in network order), and the flags of the endpoint. */
  datatype Entry = Entry(family: nat, addr: seq<Byte>, port: Port, flags: Mask)

  type Endpoint = e: Entry | (e.family == AF_INET && |e.addr| == 4) || (e.family == AF_INET6 && |e.addr| == 16)
    witness Entry(AF_INET, [0, 0, 0, 0], 0, {})

  // ---- Order ----

  /** memcmp on the addresses. */
  function Compare(a: seq<Byte>, b: seq<Byte>): int
    requires |a| == |b|
  {
    if a == [] then 0
    else if a[0] != b[0] then a[0] - b[0]
    else Compare(a[1..], b[1..])
  }

  /** The addresses differ first at n, where `a` has the smaller octet. */
  ghost predicate LowerAt(a: seq<Byte>, b: seq<Byte>, n: nat) {
    n < |a| == |b| && a[..n] == b[..n] && a[n] < b[n]
  }

  lemma NoEqualStart(a: seq<Byte>, b: seq<Byte>, n: nat)
    requires a != [] && b != [] && n <= |a| && n <= |b| && a[0] != b[0] && a[..n] == b[..n]
    ensures n == 0
  {
    forall m: nat | 0 < m <= |a| && m <= |b| ensures a[..m] != b[..m] {
      assert a[..m][0] == a[0] && b[..m][0] == b[0];
    }
  }

  /** The order of addresses: the first octet in which they differ decides. */
  lemma {:induction false} CompareMeaning(a: seq<Byte>, b: seq<Byte>)
    requires |a| == |b|
    ensures Compare(a, b) < 0 <==> exists n: nat :: LowerAt(a, b, n)
  {
    if a != [] && a[0] == b[0] {
      CompareMeaning(a[1..], b[1..]);
      if Compare(a, b) < 0 {
        var m: nat :| LowerAt(a[1..], b[1..], m);
        assert a[..m + 1] == [a[0]] + a[1..][..m] && b[..m + 1] == [b[0]] + b[1..][..m];
        assert LowerAt(a, b, m + 1);
      }
      if n: nat :| LowerAt(a, b, n) {
        assert a[1..][..n - 1] == a[..n][1..] && b[1..][..n - 1] == b[..n][1..];
        assert LowerAt(a[1..], b[1..], n - 1);
      }
    } else if a != [] {
      forall n: nat | LowerAt(a, b, n) ensures n == 0 {
        NoEqualStart(a, b, n);
      }
      assert Compare(a, b) < 0 <==> LowerAt(a, b, 0);
    }
  }

  lemma {:induction false} CompareIsEquality(a: seq<Byte>, b: seq<Byte>)
    requires |a| == |b|
    ensures Compare(a, b) == 0 <==> a == b
    ensures Compare(b, a) == 0 <==> a == b
    ensures Compare(a, b) < 0 <==> Compare(b, a) > 0
  {
    if a != [] {
      CompareIsEquality(a[1..], b[1..]);
      assert a == [a[0]] + a[1..] && b == [b[0]] + b[1..];
    }
  }

  lemma {:induction false} CompareIsTransitive(a: seq<Byte>, b: seq<Byte>, c: seq<Byte>)
    requires |a| == |b| == |c| && Compare(a, b) <= 0 && Compare(b, c) <= 0
    ensures Compare(a, c) <= 0 && (Compare(a, b) < 0 || Compare(b, c) < 0 ==> Compare(a, c) < 0)
  {
    if a != [] && a[0] == b[0] && b[0] == c[0] {
      CompareIsTransitive(a[1..], b[1..], c[1..]);
    }
  }

  /** Strictly by family, address and port; and an entry with port 0 is not followed by another of its address. */
  ghost predicate Before(a: Endpoint, b: Endpoint) {
    || a.family < b.family
    || (a.family == b.family && Compare(a.addr, b.addr) < 0)
    || (a.family == b.family && Compare(a.addr, b.addr) == 0 && 0 < a.port < b.port)
  }

  lemma BeforeIsTransitive(a: Endpoint, b: Endpoint, c: Endpoint)
    requires Before(a, b) && Before(b, c)
    ensures Before(a, c)
  {
    if a.family == b.family == c.family {
      CompareIsTransitive(a.addr, b.addr, c.addr);
    }
  }

  ghost predicate SortedAfter(s: seq<Endpoint>, lo: Option<Endpoint>) {
    s != [] ==> (lo.Some? ==> Before(lo.value, s[0])) && SortedAfter(s[1..], Some(s[0]))
  }

  ghost predicate Sorted(s: seq<Endpoint>) {
    SortedAfter(s, None)
  }

  /** What the recursive form means: every entry is before all later ones. */
  lemma {:induction false} SortedMeaning(s: seq<Endpoint>, lo: Option<Endpoint>, i: nat)
    requires SortedAfter(s, lo) && i < |s|
    ensures lo.Some? ==> Before(lo.value, s[i])
    ensures forall j :: i < j < |s| ==> Before(s[i], s[j])
  {
    if i > 0 {
      SortedMeaning(s[1..], Some(s[0]), i - 1);
      if lo.Some? {
        BeforeIsTransitive(lo.value, s[0], s[i]);
      }
      assert forall j :: i < j < |s| ==> s[j] == s[1..][j - 1];
    } else {
      forall j | 0 < j < |s| ensures Before(s[0], s[j]) {
        SortedMeaning(s[1..], Some(s[0]), j - 1);
      }
    }
  }

  lemma SortedLower(s: seq<Endpoint>, lo: Endpoint, lower: Option<Endpoint>)
    requires SortedAfter(s, Some(lo)) && (lower.Some? ==> Before(lower.value, lo))
    ensures SortedAfter(s, lower)
  {
    if s != [] && lower.Some? {
      BeforeIsTransitive(lower.value, lo, s[0]);
    }
  }

  /** An address with a port-0 entry has no other entry. */
  lemma WildcardIsAlone(s: seq<Endpoint>, i: nat, j: nat)
    requires Sorted(s) && i < j < |s| && s[i].family == s[j].family && s[i].addr == s[j].addr
    ensures 0 < s[i].port < s[j].port
  {
    SortedMeaning(s, None, i);
    CompareIsEquality(s[i].addr, s[j].addr);
  }

  // ---- fd_ep_add_merge ----

  /** The addresses it refuses without EP_ACCEPTALL. */
  predicate Refused(family: nat, addr: seq<Byte>)
    requires family == AF_INET ==> |addr| == 4
    requires family == AF_INET6 ==> |addr| == 16
  {
    if family == AF_INET then
      || addr == [0, 0, 0, 0]
      || addr[0] == 127
      || addr[0] >= 0xe0
    else if family == AF_INET6 then
      || addr == [0, 0, 0, 0, 0, 0, 0, 0, 0, 0, 0, 0, 0, 0, 0, 0]
      || addr == [0, 0, 0, 0, 0, 0, 0, 0, 0, 0, 0, 0, 0, 0, 0, 1]
      || addr[0] == 0xff
      || (addr[0] == 0xfe && addr[1] >= 0x80)
    else true
  }

  /** By number, the refused IPv4 addresses: 0.0.0.0, 127.0.0.0/8, and everything from 224.0.0.0 on. */
  lemma RefusedV4(addr: seq<Byte>)
    requires |addr| == 4
    ensures var n := 0x100_0000 * (addr[0] as int) + 0x1_0000 * (addr[1] as int) + 0x100 * (addr[2] as int) + addr[3];
            Refused(AF_INET, addr) <==> n == 0 || 0x7f00_0000 <= n <= 0x7fff_ffff || 0xe000_0000 <= n <= 0xffff_ffff
  {
  }

  /** The refused IPv6 addresses: ::, ::1, ff00::/8, and fe80::/10 with fec0::/10. */
  lemma RefusedV6(addr: seq<Byte>)
    requires |addr| == 16
    ensures var n := 0x100 * (addr[0] as int) + addr[1];
            Refused(AF_INET6, addr) <==>
              || ((forall i :: 0 <= i < 15 ==> addr[i] == 0) && addr[15] <= 1)
              || 0xff00 <= n <= 0xffff || 0xfe80 <= n <= 0xfebf || 0xfec0 <= n <= 0xfeff
  {
  }

  /** The new endpoint against one of the list: go on, insert before it, or merge with it. */
  datatype Place = Further | Here | Same

  function PlaceOf(e: Endpoint, n: Endpoint): Place {
    if e.family < n.family then Further
    else if e.family > n.family then Here
    else
      var cmp := Compare(e.addr, n.addr);
      if cmp < 0 then Further
      else if cmp > 0 then Here
      else if n.port == 0 || e.port == 0 then Same
      else if e.port < n.port then Further
      else if e.port > n.port then Here
      else Same
  }

  /** The port is filled in if it was not known, and the flags are merged. */
  function Merged(e: Endpoint, n: Endpoint): Endpoint {
    e.(port := if e.port == 0 then n.port else e.port, flags := e.flags + n.flags)
  }

  function AddMerge(s: seq<Endpoint>, n: Endpoint): seq<Endpoint> {
    if s == [] then [n]
    else match PlaceOf(s[0], n)
      case Further => [s[0]] + AddMerge(s[1..], n)
      case Here => [n] + s
      case Same => [Merged(s[0], n)] + s[1..]
  }

  lemma PlaceOrder(e: Endpoint, n: Endpoint)
    ensures PlaceOf(e, n) == Further <==> Before(e, n) && !Compatible(e, n)
    ensures PlaceOf(e, n) == Same <==> Compatible(e, n)
    ensures PlaceOf(e, n) == Here ==> Before(n, e)
  {
    if e.family == n.family {
      CompareIsEquality(e.addr, n.addr);
    }
  }

  lemma {:induction false} AddMergeSorted(s: seq<Endpoint>, n: Endpoint, lo: Option<Endpoint>)
    requires SortedAfter(s, lo) && (lo.Some? ==> Before(lo.value, n))
    ensures SortedAfter(AddMerge(s, n), lo)
  {
    if s != [] {
      PlaceOrder(s[0], n);
      match PlaceOf(s[0], n)
      case Further => AddMergeSorted(s[1..], n, Some(s[0]));
      case Here =>
      case Same => MergedSorted(s, n, lo);
    }
  }

  /** The two entries stand for the same endpoint, as far as is known. */
  ghost predicate Compatible(e: Endpoint, n: Endpoint) {
    e.family == n.family && e.addr == n.addr && (e.port == 0 || n.port == 0 || e.port == n.port)
  }

  lemma MergedSorted(s: seq<Endpoint>, n: Endpoint, lo: Option<Endpoint>)
    requires s != [] && SortedAfter(s, lo)
    ensures SortedAfter([Merged(s[0], n)] + s[1..], lo)
  {
  }

  lemma OrderedAreIncompatible(a: Endpoint, b: Endpoint)
    requires Before(a, b)
    ensures !Compatible(a, b) && !Compatible(b, a)
  {
    if a.family == b.family {
      CompareIsEquality(a.addr, b.addr);
    }
  }

  lemma IncompatibleAfter(s: seq<Endpoint>, n: Endpoint, lo: Endpoint)
    requires SortedAfter(s, Some(lo)) && Before(n, lo)
    ensures forall e :: e in s ==> !Compatible(e, n)
  {
    forall i | 0 <= i < |s| ensures !Compatible(s[i], n) {
      SortedMeaning(s, Some(lo), i);
      BeforeIsTransitive(n, lo, s[i]);
      OrderedAreIncompatible(n, s[i]);
    }
  }

  /** Where the first entry is that may stand for the same endpoint, looked for in the whole list. */
  ghost function FirstCompatible(s: seq<Endpoint>, n: Endpoint): (k: nat)
    ensures k <= |s| && (k < |s| ==> Compatible(s[k], n))
    ensures forall i :: 0 <= i < k ==> !Compatible(s[i], n)
  {
    if s == [] || Compatible(s[0], n) then 0 else 1 + FirstCompatible(s[1..], n)
  }

  ghost predicate InsertedSomewhere(s: seq<Endpoint>, n: Endpoint, r: seq<Endpoint>) {
    exists i :: 0 <= i <= |s| && r == s[..i] + [n] + s[i..]
  }

  lemma InsertedFurther(s: seq<Endpoint>, n: Endpoint, r: seq<Endpoint>)
    requires s != [] && InsertedSomewhere(s[1..], n, r)
    ensures InsertedSomewhere(s, n, [s[0]] + r)
  {
    var i :| 0 <= i <= |s[1..]| && r == s[1..][..i] + [n] + s[1..][i..];
    assert s[..i + 1] == [s[0]] + s[1..][..i] && s[i + 1..] == s[1..][i..];
    assert [s[0]] + r == s[..i + 1] + [n] + s[i + 1..];
  }

  /**
   What an addition does: the first entry that may stand for the same endpoint gets the port and the flags; if
   there is none anywhere in the list, the endpoint is added. Nothing else changes.
   */
  lemma {:induction false} AddMergeMeaning(s: seq<Endpoint>, n: Endpoint, lo: Option<Endpoint>)
    requires SortedAfter(s, lo)
    ensures var k, r := FirstCompatible(s, n), AddMerge(s, n);
            if k < |s| then
              && |r| == |s| && r == s[k := r[k]]
              && r[k].family == s[k].family && r[k].addr == s[k].addr
              && r[k].port == (if s[k].port == 0 then n.port else s[k].port)
              && (forall b: Bit :: b in r[k].flags <==> b in s[k].flags || b in n.flags)
            else InsertedSomewhere(s, n, r)
  {
    if s == [] {
      assert AddMerge(s, n) == s[..0] + [n] + s[0..];
    } else {
      PlaceOrder(s[0], n);
      match PlaceOf(s[0], n)
      case Further =>
        AddMergeMeaning(s[1..], n, Some(s[0]));
        if FirstCompatible(s, n) == |s| {
          InsertedFurther(s, n, AddMerge(s[1..], n));
        }
      case Here =>
        IncompatibleAfter(s[1..], n, s[0]);
        OrderedAreIncompatible(n, s[0]);
        assert s == [s[0]] + s[1..];
        assert AddMerge(s, n) == s[..0] + [n] + s[0..];
      case Same =>
    }
  }

  // ---- Filters ----

  datatype Keep = WithFlags(flags: Mask) | OfFamily(af: nat)

  predicate Kept(e: Endpoint, k: Keep) {
    match k
    case WithFlags(flags) => e.flags * flags != {}
    case OfFamily(af) => e.family == af
  }

  function Filtered(s: seq<Endpoint>, k: Keep): seq<Endpoint> {
    if s == [] then []
    else if Kept(s[0], k) then [s[0]] + Filtered(s[1..], k)
    else Filtered(s[1..], k)
  }

  lemma {:induction false} FilteredSorted(s: seq<Endpoint>, k: Keep, lo: Option<Endpoint>)
    requires SortedAfter(s, lo)
    ensures SortedAfter(Filtered(s, k), lo)
  {
    if s != [] {
      if Kept(s[0], k) {
        FilteredSorted(s[1..], k, Some(s[0]));
      } else {
        SortedLower(s[1..], s[0], lo);
        FilteredSorted(s[1..], k, lo);
      }
    }
  }

  /** By flags, what has one of the given ones; by family, what is of that family. */
  lemma KeptMeaning(e: Endpoint, flags: Mask, af: nat)
    ensures Kept(e, WithFlags(flags)) <==> exists b: Bit :: b in e.flags && b in flags
    ensures Kept(e, OfFamily(af)) <==> e.family == af
  {
    if b: Bit :| b in e.flags && b in flags {
      assert b in e.flags * flags;
    }
    if e.flags * flags != {} {
      var b :| b in e.flags * flags;
    }
  }

  lemma {:induction false} FilteredMembers(s: seq<Endpoint>, k: Keep)
    ensures forall e :: e in Filtered(s, k) <==> e in s && Kept(e, k)
  {
    if s != [] {
      FilteredMembers(s[1..], k);
      assert forall e :: e in s <==> e == s[0] || e in s[1..];
    }
  }

  /** A filter keeps exactly the entries with one of the flags, or those of the family. */
  lemma FilteredMeaning(s: seq<Endpoint>, flags: Mask, af: nat, e: Endpoint)
    ensures e in Filtered(s, WithFlags(flags)) <==> e in s && exists b: Bit :: b in e.flags && b in flags
    ensures e in Filtered(s, OfFamily(af)) <==> e in s && e.family == af
  {
    FilteredMembers(s, WithFlags(flags));
    FilteredMembers(s, OfFamily(af));
    KeptMeaning(e, flags, af);
  }

  /** Each entry loses the flags; one left without any is removed. */
  function Cleared(s: seq<Endpoint>, flags: Mask): seq<Endpoint> {
    if s == [] then []
    else if s[0].flags - flags == {} then Cleared(s[1..], flags)
    else [s[0].(flags := s[0].flags - flags)] + Cleared(s[1..], flags)
  }

  /** e is d without the flags, and has some left. */
  ghost predicate ClearedTo(d: Endpoint, flags: Mask, e: Endpoint) {
    && e.family == d.family && e.addr == d.addr && e.port == d.port && e.flags != {}
    && forall b: Bit :: b in e.flags <==> b in d.flags && b !in flags
  }

  /** What is left are exactly the entries that keep a flag, without the cleared ones. */
  lemma {:induction false} ClearedMeaning(s: seq<Endpoint>, flags: Mask, e: Endpoint)
    ensures e in Cleared(s, flags) <==> exists d :: d in s && ClearedTo(d, flags, e)
  {
    if s != [] {
      ClearedMeaning(s[1..], flags, e);
      assert forall d :: d in s <==> d == s[0] || d in s[1..];
      if ClearedTo(s[0], flags, e) {
        assert s[0].flags - flags == e.flags;
      }
    }
  }

  lemma {:induction false} ClearedSorted(s: seq<Endpoint>, flags: Mask, lo: Option<Endpoint>, lo': Option<Endpoint>)
    requires SortedAfter(s, lo) && (lo'.Some? ==> lo.Some? && lo.value.(flags := lo'.value.flags) == lo'.value)
    ensures SortedAfter(Cleared(s, flags), lo')
  {
    if s != [] {
      var e := s[0].(flags := s[0].flags - flags);
      if e.flags == {} {
        SortedLower(s[1..], s[0], lo);
        ClearedSorted(s[1..], flags, lo, lo');
      } else {
        ClearedSorted(s[1..], flags, Some(s[0]), Some(e));
      }
    }
  }

  // ---- Any sequence of calls ----

  datatype Op =
    | Add(family: nat, addr: seq<Byte>, port: Port, flags: Mask)
    | Filter(k: Keep)
    | ClearFlags(flags: Mask)

  /** The length of an address is that of its family. */
  ghost predicate Typed(op: Op) {
    op.Add? ==> (op.family == AF_INET ==> |op.addr| == 4) && (op.family == AF_INET6 ==> |op.addr| == 16)
  }

  /** A family that is not known is always refused, an address that makes no sense unless EP_ACCEPTALL is given. */
  predicate Ignored(family: nat, addr: seq<Byte>, flags: Mask)
    requires family == AF_INET ==> |addr| == 4
    requires family == AF_INET6 ==> |addr| == 16
  {
    || (family != AF_INET && family != AF_INET6)
    || (flags * EP_ACCEPTALL == {} && Refused(family, addr))
  }

  /** The endpoint to add, without the flag that is not kept. */
  function Screened(family: nat, addr: seq<Byte>, port: Port, flags: Mask): Option<Endpoint>
    requires family == AF_INET ==> |addr| == 4
    requires family == AF_INET6 ==> |addr| == 16
  {
    if Ignored(family, addr, flags) then None else Some(Entry(family, addr, port, flags - EP_ACCEPTALL))
  }

  /**
   An address is added exactly if its family is known and it makes sense, or EP_ACCEPTALL (0x8000) asks for all; it
   keeps all its other flags.
   */
  lemma ScreenedExactlyWhen(family: nat, addr: seq<Byte>, port: Port, flags: Mask)
    requires family == AF_INET ==> |addr| == 4
    requires family == AF_INET6 ==> |addr| == 16
    ensures var r := Screened(family, addr, port, flags);
            && (r.Some? <==> (family == AF_INET || family == AF_INET6) && (15 in flags || !Refused(family, addr)))
            && (r.Some? ==> && r.value.family == family && r.value.addr == addr && r.value.port == port
                            && forall b: Bit :: b in r.value.flags <==> b in flags && b != 15)
  {
    if 15 in flags {
      assert 15 in flags * EP_ACCEPTALL;
    } else {
      assert flags * EP_ACCEPTALL == {};
    }
  }

  ghost function Applied(s: seq<Endpoint>, op: Op): seq<Endpoint>
    requires Typed(op)
  {
    match op
    case Add(family, addr, port, flags) =>
      var n := Screened(family, addr, port, flags);
      if n.None? then s else AddMerge(s, n.value)
    case Filter(k) => Filtered(s, k)
    case ClearFlags(flags) => Cleared(s, flags)
  }

  ghost function AppliedAll(s: seq<Endpoint>, ops: seq<Op>): seq<Endpoint>
    requires forall op :: op in ops ==> Typed(op)
  {
    if ops == [] then s else Applied(AppliedAll(s, ops[..|ops| - 1]), ops[|ops| - 1])
  }

  lemma AppliedSorted(s: seq<Endpoint>, op: Op)
    requires Sorted(s) && Typed(op)
    ensures Sorted(Applied(s, op))
  {
    match op
    case Add(family, addr, port, flags) =>
      var n := Screened(family, addr, port, flags);
      if n.Some? {
        AddMergeSorted(s, n.value, None);
      }
    case Filter(k) => FilteredSorted(s, k, None);
    case ClearFlags(flags) => ClearedSorted(s, flags, None, None);
  }

  /** After any sequence of calls from an empty list, the list is strictly sorted and every port-0 entry alone. */
  lemma {:induction false} AlwaysSorted(ops: seq<Op>)
    requires forall op :: op in ops ==> Typed(op)
    ensures Sorted(AppliedAll([], ops))
  {
    if ops != [] {
      AlwaysSorted(ops[..|ops| - 1]);
      AppliedSorted(AppliedAll([], ops[..|ops| - 1]), ops[|ops| - 1]);
    }
  }

  // ---- What never gets into the list ----

  /** No entry keeps EP_ACCEPTALL, and unless it was given somewhere no entry is one of the refused addresses. */
  ghost predicate Sensible(s: seq<Endpoint>, strict: bool) {
    s != [] ==>
      && s[0].flags !! EP_ACCEPTALL && (strict ==> !Refused(s[0].family, s[0].addr))
      && Sensible(s[1..], strict)
  }

  lemma {:induction false} AddMergeSensible(s: seq<Endpoint>, n: Endpoint, strict: bool)
    requires Sensible(s, strict) && n.flags !! EP_ACCEPTALL && (strict ==> !Refused(n.family, n.addr))
    ensures Sensible(AddMerge(s, n), strict)
  {
    if s != [] {
      match PlaceOf(s[0], n)
      case Further => AddMergeSensible(s[1..], n, strict);
      case Here =>
      case Same =>
    }
  }

  lemma {:induction false} RemovalsSensible(s: seq<Endpoint>, k: Keep, flags: Mask, strict: bool)
    requires Sensible(s, strict)
    ensures Sensible(Filtered(s, k), strict) && Sensible(Cleared(s, flags), strict)
  {
    if s != [] {
      RemovalsSensible(s[1..], k, flags, strict);
    }
  }

  lemma AppliedSensible(s: seq<Endpoint>, op: Op, strict: bool)
    requires Sensible(s, strict) && Typed(op) && (strict && op.Add? ==> op.flags !! EP_ACCEPTALL)
    ensures Sensible(Applied(s, op), strict)
  {
    match op
    case Add(family, addr, port, flags) =>
      var n := Screened(family, addr, port, flags);
      if n.Some? {
        AddMergeSensible(s, n.value, strict);
      }
    case Filter(k) => RemovalsSensible(s, k, {}, strict);
    case ClearFlags(flags) => RemovalsSensible(s, OfFamily(0), flags, strict);
  }

  lemma {:induction false} AlwaysSensible(ops: seq<Op>, strict: bool)
    requires forall op :: op in ops ==> Typed(op) && (strict && op.Add? ==> op.flags !! EP_ACCEPTALL)
    ensures Sensible(AppliedAll([], ops), strict)
  {
    if ops != [] {
      AlwaysSensible(ops[..|ops| - 1], strict);
      AppliedSensible(AppliedAll([], ops[..|ops| - 1]), ops[|ops| - 1], strict);
    }
  }

  // ---- The list, edited in place ----

  /** Where the search stops: the list gets a new entry there, or the entry there is changed. */
  lemma {:induction false} InsertedThere(s: seq<Endpoint>, n: Endpoint, i: nat)
    requires i <= |s| && forall j :: 0 <= j < i ==> PlaceOf(s[j], n) == Further
    requires i < |s| ==> PlaceOf(s[i], n) == Here
    ensures AddMerge(s, n) == s[..i] + [n] + s[i..]
  {
    if i > 0 {
      InsertedThere(s[1..], n, i - 1);
      assert s == [s[0]] + s[1..];
    }
  }

  lemma {:induction false} MergedThere(s: seq<Endpoint>, n: Endpoint, i: nat)
    requires i < |s| && PlaceOf(s[i], n) == Same && forall j :: 0 <= j < i ==> PlaceOf(s[j], n) == Further
    ensures AddMerge(s, n) == s[i := Merged(s[i], n)]
  {
    if i > 0 {
      MergedThere(s[1..], n, i - 1);
      assert s == [s[0]] + s[1..];
    }
  }

  class EndpointList {
    var eps: seq<Endpoint>

    constructor ()
      ensures eps == []
    {
      eps := [];
    }

    /** The search of fd_ep_add_merge; it fills in a port that was not known. */
    method FindPlace(n: Endpoint) returns (i: nat, cmp: int)
      modifies this
      ensures i <= |eps| == |old(eps)| && forall j :: 0 <= j < i ==> PlaceOf(old(eps[j]), n) == Further
      ensures cmp == 0 <==> i < |eps| && PlaceOf(old(eps)[i], n) == Same
      ensures i < |eps| ==> PlaceOf(old(eps)[i], n) != Further
      ensures cmp != 0 ==> eps == old(eps)
      ensures cmp == 0 ==> eps == old(eps)[i := Merged(old(eps)[i], n).(flags := old(eps)[i].flags)]
    {
      i, cmp := 0, -1;
      while i < |eps|
        invariant i <= |eps| && eps == old(eps) && cmp != 0
        invariant forall j :: 0 <= j < i ==> PlaceOf(eps[j], n) == Further
        decreases |eps| - i
      {
        var e := eps[i];
        if e.family < n.family {
          i := i + 1;
          continue;
        }
        if e.family > n.family {
          return;
        }
        cmp := Compare(e.addr, n.addr);
        if cmp < 0 {
          i := i + 1;
          continue;
        }
        if cmp > 0 || n.port == 0 {
          return;
        }
        if e.port == 0 {
          eps := eps[i := e.(port := n.port)];
          return;
        }
        if e.port < n.port {
          cmp := -1;
          i := i + 1;
          continue;
        }
        if e.port > n.port {
          cmp := 1;
        }
        return;
      }
    }

    /** fd_ep_add_merge, for an address that was not filtered out. */
    method Merge(n: Endpoint)
      modifies this
      ensures eps == AddMerge(old(eps), n)
    {
      var i, cmp := FindPlace(n);
      if cmp != 0 {
        InsertedThere(eps, n, i);
        eps := eps[..i] + [n.(flags := {})] + eps[i..];
        assert {} + n.flags == n.flags;
      } else {
        MergedThere(old(eps), n, i);
      }
      eps := eps[i := eps[i].(flags := eps[i].flags + n.flags)];
    }

    /** fd_ep_add_merge. */
    method Add(family: nat, addr: seq<Byte>, port: Port, flags: Mask)
      requires Typed(Op.Add(family, addr, port, flags))
      modifies this
      ensures eps == Applied(old(eps), Op.Add(family, addr, port, flags))
    {
      var n := Screened(family, addr, port, flags);
      if n.Some? {
        Merge(n.value);
      }
    }

    /** fd_ep_filter and fd_ep_filter_family: entries are removed while the list is walked. */
    method FilterBy(k: Keep)
      modifies this
      ensures eps == Filtered(old(eps), k) == Applied(old(eps), Op.Filter(k))
    {
      var i := 0;
      while i < |eps|
        invariant i <= |eps| && Filtered(old(eps), k) == eps[..i] + Filtered(eps[i..], k)
        decreases |eps| - i
      {
        if !Kept(eps[i], k) {
          assert (eps[..i] + eps[i + 1..])[i..] == eps[i..][1..];
          eps := eps[..i] + eps[i + 1..];
        } else {
          assert eps[i + 1..] == eps[i..][1..];
          i := i + 1;
        }
      }
    }

    /** fd_ep_clearflags. */
    method ClearFlags(flags: Mask)
      modifies this
      ensures eps == Cleared(old(eps), flags) == Applied(old(eps), Op.ClearFlags(flags))
    {
      var i := 0;
      while i < |eps|
        invariant i <= |eps| && Cleared(old(eps), flags) == eps[..i] + Cleared(eps[i..], flags)
        decreases |eps| - i
      {
        var e := eps[i].(flags := eps[i].flags - flags);
        if e.flags == {} {
          assert (eps[..i] + eps[i + 1..])[i..] == eps[i..][1..];
          eps := eps[..i] + eps[i + 1..];
        } else {
          assert eps[i := e][i + 1..] == eps[i..][1..];
          eps := eps[i := e];
          i := i + 1;
        }
      }
    }
  }
}
