/**
 The cache of sent requests of a peer (p_sr.c): requests waiting for their answer, indexed by hop-by-hop id
 and, for those with a timeout, by expiry date.
 */
module SentRequests {

  import opened Clock
  import opened Lists

  const WORD := 0x1_0000_0000

  type Id = x: int | 0 <= x < WORD

  /** A message as far as the cache is concerned; `hbh` and `retransmit` are in its header. */
  datatype Message = Message(body: nat, hbh: Id, request: bool, routable: bool, retransmit: bool,
                             timeout: Option<Timespec>)

  /** A stored request; `serial` numbers the hop-by-hop ids allocated on the link, and is history only. */
  datatype SentReq = SentReq(req: Message, prevHbh: Id, serial: nat) {
    /** The request as it is given back: with the hop-by-hop id it came with. */
    function Restored(): Message {
      req.(hbh := prevHbh)
    }
  }

  predicate ExpiresBefore(a: SentReq, b: SentReq) {
    a.req.timeout.Some? && b.req.timeout.Some? && Inferior(a.req.timeout.value, b.req.timeout.value)
  }

  datatype Cache = Cache(srs: seq<SentReq>, exp: seq<SentReq>, cnt: int, cntLost: int)

  const EMPTY := Cache([], [], 0, 0)

  // ---- Invariant ----

  /** Hop-by-hop ids strictly increase, all above `lo`. */
  ghost predicate SortedAbove(s: seq<SentReq>, lo: int) {
    s != [] ==> lo < s[0].req.hbh && SortedAbove(s[1..], s[0].req.hbh)
  }

  ghost predicate SortedById(s: seq<SentReq>) {
    SortedAbove(s, -1)
  }

  /** Timeouts never decrease, none before `lo`. */
  ghost predicate SortedAfter(s: seq<SentReq>, lo: Option<Timespec>) {
    s != [] ==> && s[0].req.timeout.Some?
                && !(lo.Some? && Inferior(s[0].req.timeout.value, lo.value))
                && SortedAfter(s[1..], s[0].req.timeout)
  }

  ghost predicate SortedByExpiry(s: seq<SentReq>) {
    SortedAfter(s, None)
  }

  ghost predicate NoDuplicate(s: seq<SentReq>) {
    s != [] ==> s[0] !in s[1..] && NoDuplicate(s[1..])
  }

  /** The expiry list holds exactly the stored requests that have a timeout, each once. */
  ghost predicate HoldsTimed(srs: seq<SentReq>, exp: seq<SentReq>) {
    NoDuplicate(exp) && forall sr :: sr in exp <==> sr in srs && sr.req.timeout.Some?
  }

  ghost predicate Valid(c: Cache) {
    SortedById(c.srs) && SortedByExpiry(c.exp) && HoldsTimed(c.srs, c.exp) && c.cnt == |c.srs|
  }

  /** Sorted means sorted: every id is below all later ones. */
  lemma {:induction false} SortedAboveAt(s: seq<SentReq>, lo: int, i: nat)
    requires SortedAbove(s, lo) && i < |s|
    ensures lo < s[i].req.hbh
    ensures forall j :: i < j < |s| ==> s[i].req.hbh < s[j].req.hbh
  {
    if i > 0 {
      SortedAboveAt(s[1..], s[0].req.hbh, i - 1);
      assert forall j :: i < j < |s| ==> s[j] == s[1..][j - 1];
    } else {
      forall j | 0 < j < |s| ensures s[0].req.hbh < s[j].req.hbh {
        SortedAboveAt(s[1..], s[0].req.hbh, j - 1);
      }
    }
  }

  /** And no request expires before an earlier one of the expiry list. */
  lemma {:induction false} SortedAfterAt(s: seq<SentReq>, lo: Option<Timespec>, i: nat)
    requires SortedAfter(s, lo) && i < |s|
    ensures s[i].req.timeout.Some? && !(lo.Some? && Inferior(s[i].req.timeout.value, lo.value))
    ensures forall j :: i < j < |s| ==> !ExpiresBefore(s[j], s[i])
  {
    if i > 0 {
      SortedAfterAt(s[1..], s[0].req.timeout, i - 1);
      assert forall j :: i < j < |s| ==> s[j] == s[1..][j - 1];
    } else {
      forall j | 0 < j < |s| ensures !ExpiresBefore(s[j], s[0]) {
        SortedAfterAt(s[1..], s[0].req.timeout, j - 1);
      }
    }
  }

  /** The dates of the requests with a timeout are clock readings. */
  ghost predicate ProperDates(srs: seq<SentReq>) {
    forall sr :: sr in srs && sr.req.timeout.Some? ==> Proper(sr.req.timeout.value)
  }

  /** The date of a request with a timeout, in nanoseconds. */
  function Date(sr: SentReq): int
    requires sr.req.timeout.Some?
  {
    Ns(sr.req.timeout.value)
  }

  /** The expiry list is in the order of the dates. */
  lemma ExpiryIsByDate(c: Cache, i: nat, j: nat)
    requires Valid(c) && ProperDates(c.srs) && i <= j < |c.exp|
    ensures c.exp[i].req.timeout.Some? && c.exp[j].req.timeout.Some? && Date(c.exp[i]) <= Date(c.exp[j])
  {
    SortedAfterAt(c.exp, None, i);
    SortedAfterAt(c.exp, None, j);
    assert c.exp[i] in c.exp && c.exp[j] in c.exp;
    InferiorIsEarlier(c.exp[j].req.timeout.value, c.exp[i].req.timeout.value);
  }

  /** A request is due exactly if some date has come; then the first of the list is the earliest. */
  lemma DueExactlyWhen(c: Cache, now: Timespec)
    requires Valid(c) && ProperDates(c.srs) && Proper(now)
    ensures c.exp != [] ==> c.exp[0].req.timeout.Some?
    ensures c.exp != [] && !Inferior(now, c.exp[0].req.timeout.value) <==>
            exists sr :: sr in c.srs && sr.req.timeout.Some? && Date(sr) <= Ns(now)
    ensures forall sr :: sr in c.srs && sr.req.timeout.Some? && c.exp != [] ==> Date(c.exp[0]) <= Date(sr)
  {
    forall sr | sr in c.srs && sr.req.timeout.Some? ensures c.exp != [] && Date(c.exp[0]) <= Date(sr) {
      assert sr in c.exp;
      var j: nat :| j < |c.exp| && c.exp[j] == sr;
      ExpiryIsByDate(c, 0, j);
    }
    if c.exp != [] {
      ExpiryIsByDate(c, 0, 0);
      assert c.exp[0] in c.exp;
      InferiorIsEarlier(now, c.exp[0].req.timeout.value);
    }
  }

  // ---- The cache as a map from hop-by-hop id to stored request ----

  function ById(s: seq<SentReq>): map<Id, SentReq> {
    if s == [] then map[] else ById(s[1..])[s[0].req.hbh := s[0]]
  }

  /** Every stored request is found in the map under its id, and nothing else is there. */
  lemma {:induction false} ByIdMeaning(s: seq<SentReq>, lo: int)
    requires SortedAbove(s, lo)
    ensures forall i :: 0 <= i < |s| ==> s[i].req.hbh in ById(s) && ById(s)[s[i].req.hbh] == s[i]
    ensures forall id :: id in ById(s) ==> lo < id && ById(s)[id] in s && ById(s)[id].req.hbh == id
  {
    if s != [] {
      ByIdMeaning(s[1..], s[0].req.hbh);
      forall i | 0 <= i < |s| ensures s[i].req.hbh in ById(s) && ById(s)[s[i].req.hbh] == s[i] {
        if i > 0 {
          SortedAboveAt(s[1..], s[0].req.hbh, i - 1);
          assert s[i] == s[1..][i - 1];
        }
      }
    }
  }

  /** The map says everything about the list: two sorted lists with the same map are equal. */
  lemma {:induction false} ByIdDetermines(s: seq<SentReq>, t: seq<SentReq>, lo: int)
    requires SortedAbove(s, lo) && SortedAbove(t, lo) && ById(s) == ById(t)
    ensures s == t
  {
    assert s != [] ==> s[0].req.hbh in ById(s);
    assert t != [] ==> t[0].req.hbh in ById(t);
    if s != [] && t != [] {
      SameHead(s, t, lo);
      ByIdTail(s, lo);
      ByIdTail(t, lo);
      ByIdDetermines(s[1..], t[1..], s[0].req.hbh);
    }
  }

  lemma SameHead(s: seq<SentReq>, t: seq<SentReq>, lo: int)
    requires SortedAbove(s, lo) && SortedAbove(t, lo) && ById(s) == ById(t) && s != [] && t != []
    ensures s[0] == t[0]
  {
    ByIdMeaning(s, lo);
    ByIdMeaning(t, lo);
    SortedAboveAt(s, lo, 0);
    SortedAboveAt(t, lo, 0);
    assert s[0].req.hbh in ById(t) && t[0].req.hbh in ById(s);
  }

  lemma ByIdTail(s: seq<SentReq>, lo: int)
    requires SortedAbove(s, lo) && s != []
    ensures ById(s[1..]) == ById(s) - {s[0].req.hbh}
  {
    ByIdMeaning(s[1..], s[0].req.hbh);
  }

  // ---- What the operations do ----

  function InsertById(s: seq<SentReq>, sr: SentReq): (r: seq<SentReq>)
    ensures |r| == |s| + 1
  {
    if s == [] || sr.req.hbh < s[0].req.hbh then [sr] + s else [s[0]] + InsertById(s[1..], sr)
  }

  function InsertByExpiry(s: seq<SentReq>, sr: SentReq): (r: seq<SentReq>)
    ensures |r| == |s| + 1
  {
    if s == [] || !ExpiresBefore(s[0], sr) then [sr] + s else [s[0]] + InsertByExpiry(s[1..], sr)
  }

  function Without(s: seq<SentReq>, id: Id): (r: seq<SentReq>)
    ensures |r| <= |s|
  {
    if s == [] then []
    else if s[0].req.hbh == id then Without(s[1..], id)
    else [s[0]] + Without(s[1..], id)
  }

  function Stored(c: Cache, sr: SentReq): Cache {
    c.(srs := InsertById(c.srs, sr),
       exp := if sr.req.timeout.Some? then InsertByExpiry(c.exp, sr) else c.exp,
       cnt := c.cnt + 1)
  }

  function Removed(c: Cache, id: Id): Cache {
    c.(srs := Without(c.srs, id), exp := Without(c.exp, id), cnt := c.cnt - 1)
  }

  lemma {:induction false} InsertByIdKeeps(s: seq<SentReq>, lo: int, sr: SentReq)
    requires SortedAbove(s, lo) && lo < sr.req.hbh && sr.req.hbh !in ById(s)
    ensures SortedAbove(InsertById(s, sr), lo)
    ensures ById(InsertById(s, sr)) == ById(s)[sr.req.hbh := sr]
  {
    if s != [] && s[0].req.hbh <= sr.req.hbh {
      InsertByIdKeeps(s[1..], s[0].req.hbh, sr);
    }
  }

  lemma {:induction false} InsertByExpirySorted(s: seq<SentReq>, lo: Option<Timespec>, sr: SentReq)
    requires SortedAfter(s, lo) && sr.req.timeout.Some?
    requires !(lo.Some? && Inferior(sr.req.timeout.value, lo.value))
    ensures SortedAfter(InsertByExpiry(s, sr), lo)
  {
    if s != [] && ExpiresBefore(s[0], sr) {
      InsertByExpirySorted(s[1..], s[0].req.timeout, sr);
    }
  }

  lemma {:induction false} WithoutSorted(s: seq<SentReq>, lo: int, id: Id)
    requires SortedAbove(s, lo)
    ensures SortedAbove(Without(s, id), lo)
  {
    if s != [] {
      if s[0].req.hbh == id {
        assert SortedAbove(s[1..], lo);
        WithoutSorted(s[1..], lo, id);
      } else {
        WithoutSorted(s[1..], s[0].req.hbh, id);
      }
    }
  }

  lemma {:induction false} WithoutSortedAfter(s: seq<SentReq>, lo: Option<Timespec>, id: Id)
    requires SortedAfter(s, lo)
    ensures SortedAfter(Without(s, id), lo)
  {
    if s != [] {
      if s[0].req.hbh == id {
        assert SortedAfter(s[1..], lo);
        WithoutSortedAfter(s[1..], lo, id);
      } else {
        WithoutSortedAfter(s[1..], s[0].req.timeout, id);
      }
    }
  }

  lemma {:induction false} WithoutInMap(s: seq<SentReq>, id: Id)
    ensures ById(Without(s, id)) == ById(s) - {id}
  {
    if s != [] {
      WithoutInMap(s[1..], id);
    }
  }

  lemma {:induction false} InsertByIdMembers(s: seq<SentReq>, sr: SentReq)
    ensures forall x :: x in InsertById(s, sr) <==> x == sr || x in s
  {
    if s != [] {
      InsertByIdMembers(s[1..], sr);
      assert forall x :: x in s <==> x == s[0] || x in s[1..];
    }
  }

  lemma {:induction false} InsertByExpiryMembers(s: seq<SentReq>, sr: SentReq)
    ensures forall x :: x in InsertByExpiry(s, sr) <==> x == sr || x in s
    ensures NoDuplicate(s) && sr !in s ==> NoDuplicate(InsertByExpiry(s, sr))
  {
    if s != [] {
      InsertByExpiryMembers(s[1..], sr);
      assert forall x :: x in s <==> x == s[0] || x in s[1..];
    }
  }

  lemma {:induction false} WithoutMembers(s: seq<SentReq>, id: Id)
    ensures forall x :: x in Without(s, id) <==> x in s && x.req.hbh != id
    ensures NoDuplicate(s) ==> NoDuplicate(Without(s, id))
  {
    if s != [] {
      WithoutMembers(s[1..], id);
      assert forall x :: x in s <==> x == s[0] || x in s[1..];
    }
  }

  /** Removing the request of a sorted list that has a given id removes one element, at its place. */
  lemma {:induction false} WithoutAt(s: seq<SentReq>, lo: int, i: nat)
    requires SortedAbove(s, lo) && i < |s|
    ensures Without(s, s[i].req.hbh) == s[..i] + s[i + 1..]
  {
    if i == 0 {
      WithoutBelow(s[1..], s[0].req.hbh, s[0].req.hbh);
    } else {
      SortedAboveAt(s, lo, 0);
      WithoutAt(s[1..], s[0].req.hbh, i - 1);
      assert s == [s[0]] + s[1..];
    }
  }

  lemma {:induction false} WithoutBelow(s: seq<SentReq>, lo: int, id: Id)
    requires SortedAbove(s, lo) && id <= lo
    ensures Without(s, id) == s
  {
    if s != [] {
      WithoutBelow(s[1..], s[0].req.hbh, id);
    }
  }

  /** Where a request with this id goes: after the smaller ids, before the larger ones. */
  ghost predicate InsertPlace(s: seq<SentReq>, id: Id, i: nat) {
    && i <= |s|
    && (forall j :: 0 <= j < i ==> s[j].req.hbh < id)
    && (forall j :: i <= j < |s| ==> id < s[j].req.hbh)
  }

  lemma {:induction false} InsertByIdAt(s: seq<SentReq>, sr: SentReq, i: nat)
    requires InsertPlace(s, sr.req.hbh, i)
    ensures InsertById(s, sr) == s[..i] + [sr] + s[i..]
  {
    if i > 0 {
      InsertByIdAt(s[1..], sr, i - 1);
      assert s[..i] == [s[0]] + s[1..][..i - 1];
      assert InsertById(s, sr) == [s[0]] + InsertById(s[1..], sr);
    }
  }

  lemma {:induction false} InsertByExpiryAt(s: seq<SentReq>, sr: SentReq, i: nat)
    requires i <= |s|
    requires forall j :: 0 <= j < i ==> ExpiresBefore(s[j], sr)
    requires i < |s| ==> !ExpiresBefore(s[i], sr)
    ensures InsertByExpiry(s, sr) == s[..i] + [sr] + s[i..]
  {
    if i > 0 {
      InsertByExpiryAt(s[1..], sr, i - 1);
      assert s[..i] == [s[0]] + s[1..][..i - 1];
      assert InsertByExpiry(s, sr) == [s[0]] + InsertByExpiry(s[1..], sr);
    }
  }

  /** A store under a free id adds one binding and keeps the invariant. */
  lemma StoredKeeps(c: Cache, sr: SentReq)
    requires Valid(c) && sr.req.hbh !in ById(c.srs)
    ensures Valid(Stored(c, sr)) && ById(Stored(c, sr).srs) == ById(c.srs)[sr.req.hbh := sr]
  {
    InsertByIdKeeps(c.srs, -1, sr);
    InsertByIdMembers(c.srs, sr);
    ByIdMeaning(c.srs, -1);
    if sr.req.timeout.Some? {
      InsertByExpirySorted(c.exp, None, sr);
      InsertByExpiryMembers(c.exp, sr);
    }
  }

  /** Taking a request out removes one binding and keeps the invariant. */
  lemma RemovedKeeps(c: Cache, i: nat)
    requires Valid(c) && i < |c.srs|
    ensures var id := c.srs[i].req.hbh;
            Valid(Removed(c, id)) && ById(Removed(c, id).srs) == ById(c.srs) - {id}
  {
    var id := c.srs[i].req.hbh;
    WithoutSorted(c.srs, -1, id);
    WithoutSortedAfter(c.exp, None, id);
    WithoutMembers(c.srs, id);
    WithoutMembers(c.exp, id);
    WithoutAt(c.srs, -1, i);
    WithoutInMap(c.srs, id);
  }

  // ---- The object ----

  /** A queue of messages, as one thread at a time sees it; fd_fifo_post_noblock always accepts. */
  class MessageQueue {
    var items: seq<Message>

    constructor ()
      ensures items == []
    {
      items := [];
    }

    method PostNoBlock(m: Message)
      modifies this
      ensures items == old(items) + [m]
    {
      items := items + [m];
    }

    method Get() returns (m: Message)
      requires items != []
      modifies this
      ensures m == old(items)[0] && items == old(items)[1..]
    {
      m := items[0];
      items := items[1..];
    }
  }

  /** What failover puts back on the routing queue: routable requests, in order, T flag set, id restored. */
  function Requeued(s: seq<SentReq>): (r: seq<Message>)
    ensures forall m :: m in r ==> m.retransmit && m.routable
  {
    if s == [] then []
    else if s[0].req.routable then [s[0].Restored().(retransmit := true)] + Requeued(s[1..])
    else Requeued(s[1..])
  }

  function Routable(s: seq<SentReq>): seq<SentReq> {
    if s == [] then []
    else if s[0].req.routable then [s[0]] + Routable(s[1..])
    else Routable(s[1..])
  }

  function Local(s: seq<SentReq>): seq<SentReq> {
    if s == [] then []
    else if s[0].req.routable then Local(s[1..])
    else [s[0]] + Local(s[1..])
  }

  class SrList {
    var srs: seq<SentReq>
    var exp: seq<SentReq>
    var cnt: int
    var cntLost: int

    function Contents(): Cache
      reads this
    {
      Cache(srs, exp, cnt, cntLost)
    }

    constructor ()
      ensures Contents() == EMPTY && Valid(Contents())
    {
      srs, exp, cnt, cntLost := [], [], 0, 0;
    }

    /** find_or_next: the first position whose id is not below hbh. */
    method FindOrNext(hbh: Id) returns (i: nat, found: bool)
      requires Valid(Contents())
      ensures found <==> hbh in ById(srs)
      ensures found ==> i < |srs| && srs[i].req.hbh == hbh
      ensures !found ==> InsertPlace(srs, hbh, i)
    {
      i, found := 0, false;
      while i < |srs|
        invariant i <= |srs| && forall j :: 0 <= j < i ==> srs[j].req.hbh < hbh
      {
        if srs[i].req.hbh >= hbh {
          found := srs[i].req.hbh == hbh;
          break;
        }
        i := i + 1;
      }
      ByIdMeaning(srs, -1);
      if i < |srs| {
        SortedAboveAt(srs, -1, i);
      }
    }

    /** find_or_prev: the position just after the last id not above hbh. */
    method FindOrPrev(hbh: Id) returns (i: nat, found: bool)
      requires Valid(Contents())
      ensures found <==> hbh in ById(srs)
      ensures i <= |srs|
      ensures !found ==> InsertPlace(srs, hbh, i)
    {
      i, found := |srs|, false;
      while i > 0
        invariant i <= |srs| && forall j :: i <= j < |srs| ==> srs[j].req.hbh > hbh
      {
        if srs[i - 1].req.hbh <= hbh {
          found := srs[i - 1].req.hbh == hbh;
          break;
        }
        i := i - 1;
      }
      ByIdMeaning(srs, -1);
      forall j | 0 <= j < i ensures srs[j].req.hbh <= srs[i - 1].req.hbh {
        SortedAboveAt(srs, -1, j);
      }
    }

    /** The search of fd_p_sr_store in the expiry list, from its end. */
    method FindExpiryPlace(sr: SentReq) returns (k: nat)
      requires SortedByExpiry(exp) && sr.req.timeout.Some?
      ensures k <= |exp| && InsertByExpiry(exp, sr) == exp[..k] + [sr] + exp[k..]
    {
      k := |exp|;
      while k > 0 && !ExpiresBefore(exp[k - 1], sr)
        invariant k <= |exp| && forall j :: k <= j < |exp| ==> !ExpiresBefore(exp[j], sr)
      {
        k := k - 1;
      }
      forall j | 0 <= j < k ensures ExpiresBefore(exp[j], sr) {
        SortedAfterAt(exp, None, j);
      }
      InsertByExpiryAt(exp, sr, k);
    }

    /** fd_p_sr_store; false is EINVAL, the id being taken. */
    method Store(req: Message, hbhRestore: Id, serial: nat) returns (ok: bool)
      requires Valid(Contents())
      modifies this
      ensures ok <==> req.hbh !in ById(old(srs))
      ensures Contents() == if ok then Stored(old(Contents()), SentReq(req, hbhRestore, serial)) else old(Contents())
      ensures Valid(Contents())
    {
      var sr := SentReq(req, hbhRestore, serial);
      var i, found := FindOrPrev(req.hbh);
      if found {
        return false;
      }
      StoredKeeps(Contents(), sr);
      InsertByIdAt(srs, sr, i);
      srs := srs[..i] + [sr] + srs[i..];
      cnt := cnt + 1;
      if req.timeout.Some? {
        var k := FindExpiryPlace(sr);
        exp := exp[..k] + [sr] + exp[k..];
      }
      return true;
    }

    /** The unlink of one request from both lists. */
    method Take(i: nat) returns (sr: SentReq)
      requires Valid(Contents()) && i < |srs|
      modifies `srs, `exp, `cnt
      ensures sr == old(srs)[i]
      ensures Contents() == Removed(old(Contents()), sr.req.hbh)
      ensures srs == old(srs)[..i] + old(srs)[i + 1..]
      ensures Valid(Contents())
    {
      sr := srs[i];
      RemovedKeeps(Contents(), i);
      WithoutAt(srs, -1, i);
      srs := srs[..i] + srs[i + 1..];
      cnt := cnt - 1;
      exp := Without(exp, sr.req.hbh);
    }

    /** fd_p_sr_fetch: the request under this id, with its original id, or None. */
    method Fetch(hbh: Id) returns (req: Option<Message>)
      requires Valid(Contents())
      modifies this
      ensures req == if hbh in ById(old(srs)) then Some(ById(old(srs))[hbh].Restored()) else None
      ensures req.Some? ==> Contents() == Removed(old(Contents()), hbh)
      ensures req.None? ==>
                Contents() == old(Contents()).(cntLost := if old(cntLost) > 0 then old(cntLost) - 1 else old(cntLost))
      ensures Valid(Contents())
    {
      var i, found := FindOrNext(hbh);
      if !found {
        if cntLost > 0 {
          cntLost := cntLost - 1;
        }
        return None;
      }
      ByIdMeaning(srs, -1);
      var sr := Take(i);
      return Some(sr.Restored());
    }

    /** One round of sr_expiry_th: the request that expires first, if it has expired. */
    method Expire(now: Timespec) returns (req: Option<Message>)
      requires Valid(Contents())
      modifies this
      ensures req.Some? <==> old(exp) != [] && !Inferior(now, old(exp)[0].req.timeout.value)
      ensures ProperDates(old(srs)) && Proper(now) ==>
                (req.Some? <==> exists sr :: sr in old(srs) && sr.req.timeout.Some? && Date(sr) <= Ns(now))
      ensures ProperDates(old(srs)) && Proper(now) && req.Some? ==>
                && old(exp)[0] in old(srs) && old(exp)[0].req.timeout.Some?
                && forall sr :: sr in old(srs) && sr.req.timeout.Some? ==> Date(old(exp)[0]) <= Date(sr)
      ensures req.Some? ==> req.value == old(exp)[0].Restored()
      ensures req.Some? ==> Contents() == Removed(old(Contents()), old(exp)[0].req.hbh).(cntLost := old(cntLost) + 1)
      ensures req.None? ==> Contents() == old(Contents())
      ensures Valid(Contents())
    {
      ghost var c := Contents();
      if ProperDates(srs) && Proper(now) {
        DueExactlyWhen(c, now);
      }
      if exp == [] {
        return None;
      }
      assert exp[0] in exp;
      var first := exp[0];
      if Inferior(now, first.req.timeout.value) {
        return None;
      }
      assert first in srs;
      var i: nat :| i < |srs| && srs[i] == first;
      var sr := Take(i);
      cntLost := cntLost + 1;
      return Some(first.Restored());
    }

    /**
     fd_p_sr_failover: everything leaves, in id order; routable requests go back to routing, the others are
     freed. The two ASSERTs at its end hold.
     */
    method Failover(out: MessageQueue) returns (freed: seq<Message>)
      requires Valid(Contents())
      modifies this, out
      ensures out.items == old(out.items) + Requeued(old(srs))
      ensures freed == Requests(Local(old(srs)))
      ensures Contents() == EMPTY.(cntLost := old(cntLost)) && Valid(Contents())
    {
      freed := [];
      while srs != []
        invariant Valid(Contents()) && cntLost == old(cntLost)
        invariant out.items + Requeued(srs) == old(out.items) + Requeued(old(srs))
        invariant freed + Requests(Local(srs)) == Requests(Local(old(srs)))
        decreases |srs|
      {
        var one := FailoverFirst(out);
        freed := freed + one;
      }
      TimedIsStored(srs, exp);
    }

    method FailoverFirst(out: MessageQueue) returns (freed: seq<Message>)
      requires Valid(Contents()) && srs != []
      modifies this, out
      ensures out.items + Requeued(srs) == old(out.items) + Requeued(old(srs))
      ensures freed + Requests(Local(srs)) == Requests(Local(old(srs)))
      ensures srs == old(srs)[1..] && cntLost == old(cntLost) && Valid(Contents())
    {
      ghost var before, s := out.items, srs;
      var sr := TakeFirst();
      freed := [];
      if sr.req.routable {
        var m := sr.req.(retransmit := true);
        m := m.(hbh := sr.prevHbh);
        out.PostNoBlock(m);
      } else {
        freed := [sr.req];
      }
      FirstLeaves(s, before);
    }

    method TakeFirst() returns (sr: SentReq)
      requires Valid(Contents()) && srs != []
      modifies `srs, `exp, `cnt
      ensures sr == old(srs)[0] && srs == old(srs)[1..] && Valid(Contents())
    {
      sr := Take(0);
      assert srs == old(srs)[1..];
    }

    /** The removal in fd_p_sr_on_disconnect of the first request that is not routable. */
    method Drop(l: nat) returns (freed: Message)
      requires Valid(Contents()) && l < |srs| && !srs[l].req.routable
      requires forall j :: 0 <= j < l ==> srs[j].req.routable
      modifies this
      ensures srs == old(srs)[..l] + old(srs)[l + 1..] && cntLost == old(cntLost) && Valid(Contents())
      ensures Routable(srs) == Routable(old(srs)) && Routable(exp) == Routable(old(exp))
      ensures Requests(Local(old(srs))) == [freed] + Requests(Local(srs))
    {
      LocalAt(srs, l);
      DropLocal(srs, l);
      DropLocalById(Contents(), l);
      var sr := Take(l);
      freed := sr.req;
    }

    method DropInto(l: nat, before: seq<Message>) returns (freed: seq<Message>)
      requires Valid(Contents()) && l < |srs| && !srs[l].req.routable
      requires forall j :: 0 <= j < l ==> srs[j].req.routable
      modifies this
      ensures srs == old(srs)[..l] + old(srs)[l + 1..] && cntLost == old(cntLost) && Valid(Contents())
      ensures Routable(srs) == Routable(old(srs)) && Routable(exp) == Routable(old(exp))
      ensures freed + Requests(Local(srs)) == before + Requests(Local(old(srs)))
    {
      var m := Drop(l);
      assert before + [m] + Requests(Local(srs)) == before + ([m] + Requests(Local(srs)));
      freed := before + [m];
    }

    /** fd_p_sr_on_disconnect: the requests that are not routable are freed. */
    method OnDisconnect() returns (freed: seq<Message>)
      requires Valid(Contents())
      modifies this
      ensures srs == Routable(old(srs)) && exp == Routable(old(exp)) && cntLost == old(cntLost)
      ensures freed == Requests(Local(old(srs)))
      ensures Valid(Contents())
    {
      freed := [];
      var l := 0;
      while l < |srs|
        invariant Valid(Contents()) && cntLost == old(cntLost)
        invariant l <= |srs| && forall j :: 0 <= j < l ==> srs[j].req.routable
        invariant Routable(srs) == Routable(old(srs)) && Routable(exp) == Routable(old(exp))
        invariant freed + Requests(Local(srs)) == Requests(Local(old(srs)))
        decreases |srs| - l
      {
        if srs[l].req.routable {
          l := l + 1;
        } else {
          freed := DropInto(l, freed);
        }
      }
      OnlyRoutableLeft(Contents());
    }
  }

  function Requests(s: seq<SentReq>): seq<Message> {
    if s == [] then [] else [s[0].req] + Requests(s[1..])
  }

  lemma FirstLeaves(s: seq<SentReq>, before: seq<Message>)
    requires s != []
    ensures var m := s[0].Restored().(retransmit := true);
            (if s[0].req.routable then before + [m] else before) + Requeued(s[1..]) == before + Requeued(s)
    ensures (if s[0].req.routable then [] else [s[0].req]) + Requests(Local(s[1..])) == Requests(Local(s))
  {
    if s[0].req.routable {
      var m := s[0].Restored().(retransmit := true);
      assert before + [m] + Requeued(s[1..]) == before + ([m] + Requeued(s[1..]));
    } else {
      assert Local(s)[1..] == Local(s[1..]);
    }
  }

  lemma TimedIsStored(srs: seq<SentReq>, exp: seq<SentReq>)
    requires HoldsTimed(srs, exp)
    ensures exp != [] ==> srs != []
  {
    if exp != [] {
      assert exp[0] in exp;
    }
  }

  lemma {:induction false} AllRoutable(s: seq<SentReq>)
    requires forall sr :: sr in s ==> sr.req.routable
    ensures Routable(s) == s && Local(s) == []
  {
    if s != [] {
      AllRoutable(s[1..]);
    }
  }

  lemma OnlyRoutableLeft(c: Cache)
    requires Valid(c) && forall j :: 0 <= j < |c.srs| ==> c.srs[j].req.routable
    ensures Routable(c.srs) == c.srs && Local(c.srs) == [] && Routable(c.exp) == c.exp
  {
    AllRoutable(c.srs);
    AllRoutable(c.exp);
  }

  /** The first request that is not routable, the earlier ones being so. */
  lemma {:induction false} LocalAt(s: seq<SentReq>, l: nat)
    requires l < |s| && !s[l].req.routable && forall j :: 0 <= j < l ==> s[j].req.routable
    ensures Local(s) == [s[l]] + Local(s[..l] + s[l + 1..])
  {
    if l > 0 {
      LocalAt(s[1..], l - 1);
      assert (s[..l] + s[l + 1..])[1..] == s[1..][..l - 1] + s[1..][l..];
    } else {
      assert s[..0] + s[1..] == s[1..];
    }
  }

  lemma {:induction false} DropLocal(s: seq<SentReq>, l: nat)
    requires l < |s| && !s[l].req.routable
    ensures Routable(s[..l] + s[l + 1..]) == Routable(s)
  {
    if l > 0 {
      DropLocal(s[1..], l - 1);
      assert (s[..l] + s[l + 1..])[1..] == s[1..][..l - 1] + s[1..][l..];
    } else {
      assert s[..0] + s[1..] == s[1..];
    }
  }

  lemma DropLocalById(c: Cache, l: nat)
    requires Valid(c) && l < |c.srs| && !c.srs[l].req.routable
    ensures Routable(Without(c.exp, c.srs[l].req.hbh)) == Routable(c.exp)
  {
    var id := c.srs[l].req.hbh;
    ByIdMeaning(c.srs, -1);
    assert forall sr :: sr in c.exp && sr.req.hbh == id ==> !sr.req.routable;
    RoutableWithout(c.exp, id);
  }

  lemma {:induction false} RoutableWithout(s: seq<SentReq>, id: Id)
    requires forall sr :: sr in s && sr.req.hbh == id ==> !sr.req.routable
    ensures Routable(Without(s, id)) == Routable(s)
  {
    if s != [] {
      RoutableWithout(s[1..], id);
    }
  }
}
