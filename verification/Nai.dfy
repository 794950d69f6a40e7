/**
 Decorated Network Access Identifiers (section 2.7 of RFC 4282, section 4.4 of RFC 5729; routing_dispatch.c): a
 User-Name `realm!rest@visited` that has reached `visited` becomes `rest@realm` and is routed to `realm`.
 */
module Nai {

  import opened Bytes
  import opened Lists

  const BANG: Byte := 33
  const AT: Byte := 64
  const BACKSLASH: Byte := 92

  /** fd_os_is_valid_DiameterIdentity: letters, digits, hyphens and dots. */
  predicate IdentityChar(c: Byte) {
    97 <= c <= 122 || 65 <= c <= 90 || 48 <= c <= 57 || c == 45 || c == 46
  }

  /** In ASCII. */
  lemma IdentityCharMeaning(c: Byte)
    ensures var k := c as char;
            IdentityChar(c) <==> 'a' <= k <= 'z' || 'A' <= k <= 'Z' || '0' <= k <= '9' || k == '-' || k == '.'
  {
  }

  predicate Identity(s: seq<Byte>) {
    forall i :: 0 <= i < |s| ==> IdentityChar(s[i])
  }

  // ---- nai_get_indexes ----

  /** The scan from index i: the first `!` that is not at index 0, and the first `@`; 0 where there is none. */
  function Scan(un: seq<Byte>, i: nat, excl: nat): (nat, nat)
    decreases |un| - i
  {
    if i >= |un| then (excl, 0)
    else if un[i] == BANG then Scan(un, i + 1, if excl == 0 then i else excl)
    else if un[i] == AT then (excl, i)
    else if un[i] == 0 then (excl, 0)
    else if un[i] == BACKSLASH then Scan(un, i + 2, excl)
    else Scan(un, i + 1, excl)
  }

  method GetIndexes(un: seq<Byte>) returns (excl: nat, at: nat)
    ensures (excl, at) == Scan(un, 0, 0)
  {
    excl, at := 0, 0;
    var i := 0;
    while i < |un|
      invariant 0 <= i && at == 0 && Scan(un, 0, 0) == Scan(un, i, excl)
      decreases |un| - i
    {
      if un[i] == BANG {
        if excl == 0 {
          excl := i;
        }
      } else if un[i] == AT {
        at := i;
        return;
      } else if un[i] == 0 {
        return;
      } else if un[i] == BACKSLASH {
        i := i + 1;
      }
      i := i + 1;
    }
  }

  /** Between i and j: no `@` and no NUL, other than after a backslash, and no backslash just before j. */
  predicate CleanBetween(un: seq<Byte>, i: nat, j: nat)
    requires j <= |un|
    decreases |un| - i
  {
    if i >= j then i == j
    else if un[i] == AT || un[i] == 0 then false
    else if un[i] == BACKSLASH then CleanBetween(un, i + 2, j)
    else CleanBetween(un, i + 1, j)
  }

  predicate Clean(s: seq<Byte>) {
    CleanBetween(s, 0, |s|)
  }

  lemma {:induction false} ScanFindsAt(un: seq<Byte>, i: nat, excl: nat)
    ensures var (e, a) := Scan(un, i, excl);
            && (a != 0 ==> i <= a < |un| && un[a] == AT)
            && (excl != 0 ==> e == excl && (a != 0 ==> CleanBetween(un, i, a)))
    decreases |un| - i
  {
    if i < |un| && un[i] != AT && un[i] != 0 {
      if un[i] == BACKSLASH {
        ScanFindsAt(un, i + 2, excl);
      } else {
        ScanFindsAt(un, i + 1, if un[i] == BANG && excl == 0 then i else excl);
      }
    }
  }

  lemma {:induction false} ScanFindsBang(un: seq<Byte>, i: nat)
    ensures var (e, a) := Scan(un, i, 0);
            e != 0 ==> i <= e < |un| && un[e] == BANG && (a != 0 ==> e < a < |un| && CleanBetween(un, e + 1, a))
    decreases |un| - i
  {
    if i < |un| && un[i] != AT && un[i] != 0 {
      if un[i] == BACKSLASH {
        ScanFindsBang(un, i + 2);
      } else if un[i] == BANG && i != 0 {
        ScanFindsAt(un, i + 1, i);
      } else {
        ScanFindsBang(un, i + 1);
      }
    }
  }

  lemma {:induction false} ScanOverIdentity(un: seq<Byte>, i: nat, n: nat, excl: nat)
    requires i <= n <= |un| && forall j :: i <= j < n ==> IdentityChar(un[j])
    ensures Scan(un, i, excl) == Scan(un, n, excl)
    decreases n - i
  {
    if i < n {
      ScanOverIdentity(un, i + 1, n, excl);
    }
  }

  lemma {:induction false} ScanOverClean(un: seq<Byte>, i: nat, n: nat, excl: nat)
    requires n <= |un| && CleanBetween(un, i, n) && excl != 0
    ensures Scan(un, i, excl) == Scan(un, n, excl)
    decreases |un| - i
  {
    if i < n {
      ScanOverClean(un, if un[i] == BACKSLASH then i + 2 else i + 1, n, excl);
    }
  }

  /** Being clean only depends on the bytes between. */
  lemma {:induction false} CleanPart(un: seq<Byte>, s: seq<Byte>, off: nat, i: nat)
    requires off + |s| <= |un| && i <= |s| + 1 && forall j :: 0 <= j < |s| ==> s[j] == un[off + j]
    ensures CleanBetween(un, off + i, off + |s|) == CleanBetween(s, i, |s|)
    decreases |s| - i
  {
    if i < |s| {
      assert s[i] == un[off + i];
      if s[i] == BACKSLASH {
        CleanPart(un, s, off, i + 2);
      } else {
        CleanPart(un, s, off, i + 1);
      }
    }
  }

  // ---- process_decorated_NAI ----

  /** The new User-Name and Destination-Realm, if there is something to do. */
  function Rewritten(un: seq<Byte>): Option<(seq<Byte>, seq<Byte>)> {
    var (sep, at) := Scan(un, 0, 0);
    if sep == 0 || sep > at || at >= |un| || !Identity(un[..sep]) then None
    else Some((un[sep + 1..at + 1] + un[..sep], un[..sep]))
  }

  /** The two copies, which fill the new buffer of `at` bytes exactly. */
  method Assemble(un: seq<Byte>, sep: nat, at: nat) returns (made: seq<Byte>)
    requires sep <= at < |un|
    ensures made == un[sep + 1..at + 1] + un[..sep] && |made| == at
  {
    var buf := new Byte[at](_ => 0);
    forall i | 0 <= i < at - sep {
      buf[i] := un[sep + 1 + i];
    }
    assert buf[..at - sep] == un[sep + 1..at + 1];
    forall i | 0 <= i < sep {
      buf[at - sep + i] := un[i];
    }
    assert buf[..at - sep] == un[sep + 1..at + 1];
    assert buf[at - sep..] == un[..sep];
    made := buf[..];
    assert made == buf[..at - sep] + buf[at - sep..];
  }

  /** process_decorated_NAI. */
  method ProcessDecorated(un: seq<Byte>, dr: seq<Byte>) returns (wasNai: bool, un': seq<Byte>, dr': seq<Byte>)
    ensures wasNai == Rewritten(un).Some?
    ensures wasNai ==> (un', dr') == Rewritten(un).value
    ensures !wasNai ==> un' == un && dr' == dr
  {
    var sep, at := GetIndexes(un);
    ScanFindsAt(un, 0, 0);
    ScanFindsBang(un, 0);
    if sep == 0 || sep > at || !Identity(un[..sep]) {
      return false, un, dr;
    }
    un' := Assemble(un, sep, at);
    return true, un', un[..sep];
  }

  // ---- What the rewriting means ----

  function Decorated(realm: seq<Byte>, rest: seq<Byte>, visited: seq<Byte>): seq<Byte> {
    realm + [BANG] + rest + [AT] + visited
  }

  lemma ScanDecorated(realm: seq<Byte>, rest: seq<Byte>, visited: seq<Byte>)
    requires Identity(realm) && realm != [] && Clean(rest)
    ensures Scan(Decorated(realm, rest, visited), 0, 0) == (|realm|, |realm| + 1 + |rest|)
  {
    var un, n := Decorated(realm, rest, visited), |realm|;
    ScanOverIdentity(un, 0, n, 0);
    CleanPart(un, rest, n + 1, 0);
    ScanOverClean(un, n + 1, n + 1 + |rest|, n);
  }

  /** `realm!rest@visited` becomes `rest@realm`, for `realm`. */
  lemma RewritesDecorated(realm: seq<Byte>, rest: seq<Byte>, visited: seq<Byte>)
    requires Identity(realm) && realm != [] && Clean(rest)
    ensures Rewritten(Decorated(realm, rest, visited)) == Some((rest + [AT] + realm, realm))
  {
    var un := Decorated(realm, rest, visited);
    ScanDecorated(realm, rest, visited);
    assert un[..|realm|] == realm;
    assert un[|realm| + 1..|realm| + 2 + |rest|] == rest + [AT];
  }

  ghost predicate IsDecorated(un: seq<Byte>, realm: seq<Byte>, rest: seq<Byte>, visited: seq<Byte>) {
    Identity(realm) && realm != [] && Clean(rest) && un == Decorated(realm, rest, visited)
  }

  lemma TakenApart(un: seq<Byte>, sep: nat, at: nat)
    requires 0 < sep < at < |un| && un[sep] == BANG && un[at] == AT
    requires Identity(un[..sep]) && CleanBetween(un, sep + 1, at)
    ensures IsDecorated(un, un[..sep], un[sep + 1..at], un[at + 1..])
  {
    CleanPart(un, un[sep + 1..at], sep + 1, 0);
    assert un == Decorated(un[..sep], un[sep + 1..at], un[at + 1..]);
  }

  /** Exactly the User-Names of this form are rewritten, and the new one is shorter. */
  lemma RewritesExactlyDecorated(un: seq<Byte>)
    ensures Rewritten(un).Some? <==> exists realm, rest, visited :: IsDecorated(un, realm, rest, visited)
    ensures Rewritten(un).Some? ==> |Rewritten(un).value.0| < |un|
  {
    if Rewritten(un).Some? {
      var (sep, at) := Scan(un, 0, 0);
      ScanFindsBang(un, 0);
      ScanFindsAt(un, 0, 0);
      TakenApart(un, sep, at);
    }
    if realm, rest, visited :| IsDecorated(un, realm, rest, visited) {
      RewritesDecorated(realm, rest, visited);
    }
  }

  // ---- Requeueing ----

  /** A request for this realm is requeued by msg_rt_in after a rewriting. */
  predicate Requeues(un: seq<Byte>, dr: seq<Byte>, here: seq<Byte>) {
    AllLower(dr) == AllLower(here) && Rewritten(un).Some?
  }

  /** User-Name and Destination-Realm after n rewritings, as far as there is something to rewrite. */
  ghost function Repeated(un: seq<Byte>, dr: seq<Byte>, n: nat): (seq<Byte>, seq<Byte>) {
    if n == 0 then (un, dr)
    else
      var (u, d) := Repeated(un, dr, n - 1);
      if Rewritten(u).Some? then Rewritten(u).value else (u, d)
  }

  /** The passes of one request through msg_rt_in end: each rewrites the User-Name, and makes it shorter. */
  method RoutedIn(un: seq<Byte>, dr: seq<Byte>, here: seq<Byte>)
    returns (un': seq<Byte>, dr': seq<Byte>, passes: nat)
    ensures (un', dr') == Repeated(un, dr, passes)
    ensures AllLower(dr') != AllLower(here) || Rewritten(un').None?
    ensures forall k: nat :: k < passes ==>
              var (u, d) := Repeated(un, dr, k); AllLower(d) == AllLower(here) && Rewritten(u).Some?
    ensures passes + |un'| <= |un|
  {
    un', dr', passes := un, dr, 0;
    while Requeues(un', dr', here)
      invariant passes + |un'| <= |un| && (un', dr') == Repeated(un, dr, passes)
      invariant forall k: nat :: k < passes ==> Requeues(Repeated(un, dr, k).0, Repeated(un, dr, k).1, here)
      decreases |un'|
    {
      RewritesExactlyDecorated(un');
      var _, newUn, newDr := ProcessDecorated(un', dr');
      un', dr', passes := newUn, newDr, passes + 1;
    }
  }

  // ---- A route through several realms ----

  ghost predicate Realms(rs: seq<seq<Byte>>) {
    forall r :: r in rs ==> Identity(r) && r != []
  }

  function Inner(rs: seq<seq<Byte>>, user: seq<Byte>): seq<Byte> {
    if rs == [] then user else rs[0] + [BANG] + Inner(rs[1..], user)
  }

  /** `r1!r2!...!rn!user@visited`. */
  function Route(rs: seq<seq<Byte>>, user: seq<Byte>, visited: seq<Byte>): seq<Byte> {
    Inner(rs, user) + [AT] + visited
  }

  lemma {:induction false} CleanOverIdentity(un: seq<Byte>, i: nat, n: nat)
    requires i <= n <= |un| && forall j :: i <= j < n ==> IdentityChar(un[j]) || un[j] == BANG
    ensures CleanBetween(un, i, |un|) == CleanBetween(un, n, |un|)
    decreases n - i
  {
    if i < n {
      CleanOverIdentity(un, i + 1, n);
    }
  }

  lemma {:induction false} InnerIsClean(rs: seq<seq<Byte>>, user: seq<Byte>)
    requires Realms(rs) && Clean(user)
    ensures Clean(Inner(rs, user))
  {
    if rs != [] {
      var un, n := Inner(rs, user), |rs[0]| + 1;
      assert Identity(rs[0]);
      InnerIsClean(rs[1..], user);
      CleanPart(un, Inner(rs[1..], user), n, 0);
      CleanOverIdentity(un, 0, n);
    }
  }

  /** Each rewriting takes the request to the next realm of its route; the last one leaves `user@rn`. */
  lemma OneHop(rs: seq<seq<Byte>>, user: seq<Byte>, visited: seq<Byte>)
    requires Realms(rs) && rs != [] && Clean(user)
    ensures Rewritten(Route(rs, user, visited)) == Some((Route(rs[1..], user, rs[0]), rs[0]))
  {
    assert Identity(rs[0]) && rs[0] != [];
    InnerIsClean(rs[1..], user);
    RewritesDecorated(rs[0], Inner(rs[1..], user), visited);
    assert Route(rs, user, visited) == Decorated(rs[0], Inner(rs[1..], user), visited);
  }

  /** After k rewritings a request on a route is at its k-th realm, with the rest of the route before it. */
  lemma {:induction false} AlongTheRoute(rs: seq<seq<Byte>>, user: seq<Byte>, visited: seq<Byte>, dr: seq<Byte>, k: nat)
    requires Realms(rs) && Clean(user) && k <= |rs|
    ensures Repeated(Route(rs, user, visited), dr, k) ==
            (Route(rs[k..], user, if k == 0 then visited else rs[k - 1]), if k == 0 then dr else rs[k - 1])
  {
    if k == 0 {
      assert rs[0..] == rs;
    } else {
      AlongTheRoute(rs, user, visited, dr, k - 1);
      OneHop(rs[k - 1..], user, if k == 1 then visited else rs[k - 2]);
      assert rs[k - 1..][1..] == rs[k..];
    }
  }

  /** The characters are those of ASCII: `a!b@c` becomes `b@a`, for `a`; behind a backslash `!` and `@` mean nothing. */
  lemma InAscii()
    ensures Rewritten([97, 33, 98, 64, 99]) == Some(([98, 64, 97], [97]))
    ensures Rewritten([97, 92, 33, 98, 64, 99]) == None
    ensures Rewritten([97, 33, 98, 92, 64, 99, 64, 100]) == Some(([98, 92, 64, 99, 64, 97], [97]))
  {
    var one, two, three: seq<Byte> := [97, 33, 98, 64, 99], [97, 92, 33, 98, 64, 99], [97, 33, 98, 92, 64, 99, 64, 100];
    assert Scan(one, 1, 0) == Scan(one, 2, 1) == Scan(one, 3, 1) == (1, 3);
    assert Scan(two, 1, 0) == Scan(two, 3, 0) == Scan(two, 4, 0) == (0, 4);
    assert Scan(three, 1, 0) == Scan(three, 2, 1) == Scan(three, 3, 1) == Scan(three, 5, 1);
    assert Scan(three, 5, 1) == Scan(three, 6, 1) == (1, 6);
    assert one[..1] == [97] && one[2..4] + one[..1] == [98, 64, 97];
    assert three[..1] == [97] && three[2..7] + three[..1] == [98, 92, 64, 99, 64, 97];
  }

  lemma {:induction false} ScanWithoutBang(un: seq<Byte>, i: nat, n: nat)
    requires n < |un| && un[n] == AT && CleanBetween(un, i, n) && BANG !in un[..n]
    ensures Scan(un, i, 0).0 == 0
    decreases |un| - i
  {
    if i < n {
      assert un[i] == un[..n][i];
      ScanWithoutBang(un, if un[i] == BACKSLASH then i + 2 else i + 1, n);
    }
  }

  /** And there the route ends. */
  lemma RouteEnds(user: seq<Byte>, visited: seq<Byte>)
    requires Clean(user) && BANG !in user
    ensures Rewritten(Route([], user, visited)) == None
  {
    var un := Route([], user, visited);
    assert un[..|user|] == user;
    CleanPart(un, user, 0, 0);
    ScanWithoutBang(un, 0, |user|);
  }
}
