/**
 Whole runs of the request exchange with a peer: hop-by-hop ids issued by do_send (p_out.c) from a 32-bit
 counter, requests stored in the cache, and every way out of it.
 */
module SentRequestRuns {

  import opened Arithmetic
  import opened Clock
  import opened Lists
  import opened SentRequests

  datatype How = Fetched | Expired | FailedOver | Freed

  datatype Departure = Departure(sr: SentReq, how: How) {
    /** The message handed to whoever takes over; a freed request is handed to nobody. */
    function Handed(): Option<Message> {
      match how
      case Fetched => Some(sr.Restored())
      case Expired => Some(sr.Restored())
      case FailedOver => Some(sr.Restored().(retransmit := true))
      case Freed => None
    }
  }

  /**
   The exchange: the cache, p_hbh, and history: the first id ever, how many ids were issued, the requests
   accepted in the cache (as given to do_send, and as stored) and those that left it.
   */
  datatype Exchange = Exchange(cache: Cache, nextHbh: Id, first: Id, issued: nat,
                       given: seq<Message>, accepted: seq<SentReq>, left: seq<Departure>)

  datatype Op =
    | Send(m: Message)        // do_send
    | Answer(hbh: Id)         // fd_p_sr_fetch for an incoming answer
    | Expiry(now: Timespec)   // one round of sr_expiry_th
    | Failover                // fd_p_sr_failover
    | Disconnect              // fd_p_sr_on_disconnect

  /** The 32-bit counter goes up by one. */
  function Successor(id: Id): Id {
    if id == WORD - 1 then 0 else id + 1
  }

  /** The id of the n-th allocation. */
  ghost function IdAt(first: Id, n: nat): Id {
    if n == 0 then first else Successor(IdAt(first, n - 1))
  }

  lemma {:induction false} IdAtIsModular(first: Id, n: nat)
    ensures IdAt(first, n) == (first + n) % 0x1_0000_0000
  {
    if n == 0 {
      DivModUnique(first, WORD, 0, first);
    } else {
      IdAtIsModular(first, n - 1);
      ModAdd(first + (n - 1), 1, WORD);
    }
  }

  /** do_send before the store: the header takes the next id. */
  function Allocated(l: Exchange, m: Message): SentReq {
    SentReq(m.(hbh := l.nextHbh), m.hbh, l.issued)
  }

  function Sent(l: Exchange, m: Message): Exchange {
    var sr := Allocated(l, m);
    var l' := l.(nextHbh := Successor(l.nextHbh), issued := l.issued + 1);
    if l.nextHbh in ById(l.cache.srs) then l'  // EINVAL: the message is dropped by the caller
    else l'.(cache := Stored(l.cache, sr), given := l.given + [m], accepted := l.accepted + [sr])
  }

  function Lost(c: Cache): Cache {
    if c.cntLost > 0 then c.(cntLost := c.cntLost - 1) else c
  }

  function All(s: seq<SentReq>): seq<Departure> {
    if s == [] then []
    else [Departure(s[0], if s[0].req.routable then FailedOver else Freed)] + All(s[1..])
  }

  function AllFreed(s: seq<SentReq>): seq<Departure> {
    if s == [] then [] else [Departure(s[0], Freed)] + AllFreed(s[1..])
  }

  function Apply(l: Exchange, op: Op): Exchange {
    match op
    case Send(m) => if m.request then Sent(l, m) else l
    case Answer(hbh) =>
      if hbh in ById(l.cache.srs) then
        l.(cache := Removed(l.cache, hbh), left := l.left + [Departure(ById(l.cache.srs)[hbh], Fetched)])
      else l.(cache := Lost(l.cache))
    case Expiry(now) =>
      if l.cache.exp == [] || l.cache.exp[0].req.timeout.None? || Inferior(now, l.cache.exp[0].req.timeout.value) then l
      else
        var sr := l.cache.exp[0];
        var c := Removed(l.cache, sr.req.hbh);
        l.(cache := c.(cntLost := c.cntLost + 1), left := l.left + [Departure(sr, Expired)])
    case Failover =>
      l.(cache := EMPTY.(cntLost := l.cache.cntLost), left := l.left + All(l.cache.srs))
    case Disconnect =>
      l.(cache := Cache(Routable(l.cache.srs), Routable(l.cache.exp), |Routable(l.cache.srs)|, l.cache.cntLost),
         left := l.left + AllFreed(Local(l.cache.srs)))
  }

  function RunOps(l: Exchange, ops: seq<Op>): Exchange
    decreases |ops|
  {
    if ops == [] then l else RunOps(Apply(l, ops[0]), ops[1..])
  }

  function Fresh(first: Id): Exchange {
    Exchange(EMPTY, first, first, 0, [], [], [])
  }

  /** The sending side of a connection: the cache and p_hbh, which do_send advances. */
  class Outbound {
    const srl: SrList
    var hbh: Id
    var issued: nat

    constructor (srl: SrList, first: Id)
      ensures this.srl == srl && hbh == first && issued == 0
    {
      this.srl, hbh, issued := srl, first, 0;
    }

    /** do_send: a request takes the next id and is stored before it is sent; `ok` is false if the store refuses. */
    method DoSend(m: Message) returns (ok: bool, sent: Message)
      requires Valid(srl.Contents())
      modifies this, srl
      ensures Valid(srl.Contents())
      ensures !m.request ==> ok && sent == m && srl.Contents() == old(srl.Contents())
      ensures !m.request ==> hbh == old(hbh) && issued == old(issued)
      ensures m.request ==> sent == m.(hbh := old(hbh)) && hbh == Successor(old(hbh)) && issued == old(issued) + 1
      ensures m.request ==> (ok <==> old(hbh) !in ById(old(srl.srs)))
      ensures m.request ==> srl.Contents() == if ok then Stored(old(srl.Contents()), SentReq(sent, m.hbh, old(issued)))
                                              else old(srl.Contents())
    {
      if !m.request {
        return true, m;
      }
      sent := m.(hbh := hbh);
      hbh := Successor(hbh);
      issued := issued + 1;
      ok := srl.Store(sent, m.hbh, issued - 1);
    }
  }

  // ---- Invariants ----

  function Leavers(d: seq<Departure>): seq<SentReq> {
    if d == [] then [] else [d[0].sr] + Leavers(d[1..])
  }

  /** Every id is the one its allocation number gives. */
  ghost predicate Numbered(l: Exchange) {
    && l.nextHbh == IdAt(l.first, l.issued)
    && forall sr :: sr in l.cache.srs ==> sr.serial < l.issued && sr.req.hbh == IdAt(l.first, sr.serial)
  }

  /** Accepted requests carry increasing allocation numbers, so no two are the same. */
  ghost predicate Serials(l: Exchange) {
    && (forall i, j :: 0 <= i < j < |l.accepted| ==> l.accepted[i].serial < l.accepted[j].serial)
    && (forall i :: 0 <= i < |l.accepted| ==> l.accepted[i].serial < l.issued)
  }

  /** Restoring the id of a stored request gives back the message that was sent. */
  ghost predicate Faithful(l: Exchange) {
    |l.given| == |l.accepted| && forall i :: 0 <= i < |l.given| ==> l.accepted[i].Restored() == l.given[i]
  }

  /** Each accepted request is in the cache or has left it, exactly once. */
  ghost predicate Accounted(l: Exchange) {
    multiset(l.accepted) == multiset(l.cache.srs) + multiset(Leavers(l.left))
  }

  ghost predicate Books(l: Exchange) {
    Numbered(l) && Serials(l) && Faithful(l) && Accounted(l)
  }

  ghost predicate ExchangeInv(l: Exchange) {
    Valid(l.cache) && Books(l)
  }

  lemma {:induction false} LeaversConcat(a: seq<Departure>, b: seq<Departure>)
    ensures Leavers(a + b) == Leavers(a) + Leavers(b)
  {
    if a == [] {
      assert a + b == b;
    } else {
      assert (a + b)[1..] == a[1..] + b;
      LeaversConcat(a[1..], b);
    }
  }

  lemma {:induction false} LeaversAll(s: seq<SentReq>)
    ensures Leavers(All(s)) == s && Leavers(AllFreed(s)) == s
  {
    if s != [] {
      LeaversAll(s[1..]);
    }
  }

  lemma {:induction false} InsertByIdMultiset(s: seq<SentReq>, sr: SentReq)
    ensures multiset(InsertById(s, sr)) == multiset(s) + multiset{sr}
  {
    if s != [] {
      assert s == [s[0]] + s[1..];
      InsertByIdMultiset(s[1..], sr);
    }
  }

  lemma {:induction false} SplitMultiset(s: seq<SentReq>)
    ensures multiset(s) == multiset(Routable(s)) + multiset(Local(s))
  {
    if s != [] {
      assert s == [s[0]] + s[1..];
      SplitMultiset(s[1..]);
    }
  }

  lemma {:induction false} RoutableMembers(s: seq<SentReq>)
    ensures forall x :: x in Routable(s) <==> x in s && x.req.routable
    ensures NoDuplicate(s) ==> NoDuplicate(Routable(s))
  {
    if s != [] {
      RoutableMembers(s[1..]);
      assert forall x :: x in s <==> x == s[0] || x in s[1..];
    }
  }

  lemma {:induction false} RoutableSorted(s: seq<SentReq>, lo: int)
    requires SortedAbove(s, lo)
    ensures SortedAbove(Routable(s), lo)
  {
    if s != [] {
      RoutableSorted(s[1..], s[0].req.hbh);
      if !s[0].req.routable {
        assert SortedAbove(s[1..], lo);
        RoutableSorted(s[1..], lo);
      }
    }
  }

  lemma {:induction false} RoutableSortedAfter(s: seq<SentReq>, lo: Option<Timespec>)
    requires SortedAfter(s, lo)
    ensures SortedAfter(Routable(s), lo)
  {
    if s != [] {
      RoutableSortedAfter(s[1..], s[0].req.timeout);
      if !s[0].req.routable {
        assert SortedAfter(s[1..], lo);
        RoutableSortedAfter(s[1..], lo);
      }
    }
  }

  lemma RemoveAtMultiset(s: seq<SentReq>, i: nat)
    requires i < |s|
    ensures multiset(s) == multiset(s[..i] + s[i + 1..]) + multiset{s[i]}
  {
    assert s == s[..i] + [s[i]] + s[i + 1..];
  }

  /** One request leaves the cache, for whatever reason. */
  lemma OneLeaves(c: Cache, left: seq<Departure>, sr: SentReq, how: How)
    requires Valid(c) && sr in c.srs
    ensures Valid(Removed(c, sr.req.hbh))
    ensures forall x :: x in Removed(c, sr.req.hbh).srs ==> x in c.srs
    ensures multiset(c.srs) + multiset(Leavers(left)) ==
            multiset(Removed(c, sr.req.hbh).srs) + multiset(Leavers(left + [Departure(sr, how)]))
  {
    var i :| 0 <= i < |c.srs| && c.srs[i] == sr;
    RemovedKeeps(c, i);
    WithoutAt(c.srs, -1, i);
    WithoutMembers(c.srs, sr.req.hbh);
    LeaversConcat(left, [Departure(sr, how)]);
    RemoveAtMultiset(c.srs, i);
  }

  /** The requests that are not routable leave the cache. */
  lemma LocalLeave(c: Cache, left: seq<Departure>)
    requires Valid(c)
    ensures Valid(Cache(Routable(c.srs), Routable(c.exp), |Routable(c.srs)|, c.cntLost))
    ensures forall x :: x in Routable(c.srs) ==> x in c.srs
    ensures multiset(c.srs) + multiset(Leavers(left)) ==
            multiset(Routable(c.srs)) + multiset(Leavers(left + AllFreed(Local(c.srs))))
  {
    LeaversConcat(left, AllFreed(Local(c.srs)));
    LeaversAll(Local(c.srs));
    SplitMultiset(c.srs);
    RoutableMembers(c.srs);
    RoutableMembers(c.exp);
    RoutableSorted(c.srs, -1);
    RoutableSortedAfter(c.exp, None);
  }

  /** Every request leaves the cache. */
  lemma AllLeave(c: Cache, left: seq<Departure>)
    ensures multiset(c.srs) + multiset(Leavers(left)) == multiset(Leavers(left + All(c.srs)))
  {
    LeaversConcat(left, All(c.srs));
    LeaversAll(c.srs);
  }

  /** Any change of the cache that only lets accounted requests out keeps the invariant. */
  lemma LeavingKeeps(l: Exchange, c: Cache, left: seq<Departure>)
    requires Books(l) && forall x :: x in c.srs ==> x in l.cache.srs
    requires multiset(l.cache.srs) + multiset(Leavers(l.left)) == multiset(c.srs) + multiset(Leavers(left))
    ensures Books(l.(cache := c, left := left))
  {
  }

  /** A request enters the cache. */
  lemma EnteringKeeps(l: Exchange, c: Cache, m: Message, sr: SentReq)
    requires Books(l) && forall x :: x in c.srs ==> x == sr || x in l.cache.srs
    requires multiset(c.srs) == multiset(l.cache.srs) + multiset{sr}
    requires sr == Allocated(l, m)
    ensures Books(l.(cache := c, nextHbh := Successor(l.nextHbh), issued := l.issued + 1,
                     given := l.given + [m], accepted := l.accepted + [sr]))
  {
  }

  /** An id is allocated but its request refused. */
  lemma RefusedKeeps(l: Exchange)
    requires Books(l)
    ensures Books(l.(nextHbh := Successor(l.nextHbh), issued := l.issued + 1))
  {
  }

  lemma SentKeeps(l: Exchange, m: Message)
    requires ExchangeInv(l)
    ensures ExchangeInv(Sent(l, m))
  {
    if l.nextHbh in ById(l.cache.srs) {
      RefusedKeeps(l);
    } else {
      var sr := Allocated(l, m);
      StoredKeeps(l.cache, sr);
      InsertByIdMembers(l.cache.srs, sr);
      InsertByIdMultiset(l.cache.srs, sr);
      EnteringKeeps(l, Stored(l.cache, sr), m, sr);
    }
  }

  /** One request leaves, and perhaps a lost one is noted: the invariant stays. */
  lemma OneLeavesKeeps(l: Exchange, sr: SentReq, how: How, lost: int)
    requires ExchangeInv(l) && sr in l.cache.srs
    ensures ExchangeInv(l.(cache := Removed(l.cache, sr.req.hbh).(cntLost := lost),
                           left := l.left + [Departure(sr, how)]))
  {
    OneLeaves(l.cache, l.left, sr, how);
    LeavingKeeps(l, Removed(l.cache, sr.req.hbh).(cntLost := lost), l.left + [Departure(sr, how)]);
  }

  lemma AnswerKeeps(l: Exchange, hbh: Id)
    requires ExchangeInv(l)
    ensures ExchangeInv(Apply(l, Answer(hbh)))
  {
    if hbh in ById(l.cache.srs) {
      ByIdMeaning(l.cache.srs, -1);
      OneLeavesKeeps(l, ById(l.cache.srs)[hbh], Fetched, l.cache.cntLost);
    } else {
      LeavingKeeps(l, Lost(l.cache), l.left);
    }
  }

  lemma ExpiryKeeps(l: Exchange, now: Timespec)
    requires ExchangeInv(l)
    ensures ExchangeInv(Apply(l, Expiry(now)))
  {
    if l.cache.exp != [] {
      assert l.cache.exp[0] in l.cache.exp;
      OneLeavesKeeps(l, l.cache.exp[0], Expired, l.cache.cntLost + 1);
    }
  }

  lemma EmptyIsValid(c: Cache)
    requires c.srs == [] && c.exp == [] && c.cnt == 0
    ensures Valid(c)
  {
  }

  lemma FailoverKeeps(l: Exchange)
    requires ExchangeInv(l)
    ensures ExchangeInv(Apply(l, Failover))
  {
    AllLeave(l.cache, l.left);
    var empty := EMPTY.(cntLost := l.cache.cntLost);
    EmptyIsValid(empty);
    assert multiset(empty.srs) == multiset{};
    LeavingKeeps(l, empty, l.left + All(l.cache.srs));
  }

  lemma DisconnectKeeps(l: Exchange)
    requires ExchangeInv(l)
    ensures ExchangeInv(Apply(l, Disconnect))
  {
    LocalLeave(l.cache, l.left);
    var kept := Cache(Routable(l.cache.srs), Routable(l.cache.exp), |Routable(l.cache.srs)|, l.cache.cntLost);
    LeavingKeeps(l, kept, l.left + AllFreed(Local(l.cache.srs)));
  }

  lemma OpKeepsInv(l: Exchange, op: Op)
    requires ExchangeInv(l)
    ensures ExchangeInv(Apply(l, op))
  {
    match op
    case Send(m) => SentKeeps(l, m);
    case Answer(hbh) => AnswerKeeps(l, hbh);
    case Expiry(now) => ExpiryKeeps(l, now);
    case Failover => FailoverKeeps(l);
    case Disconnect => DisconnectKeeps(l);
  }

  /** A run is its operations, one after the other. */
  lemma {:induction false} RunsCompose(l: Exchange, a: seq<Op>, b: seq<Op>, op: Op)
    ensures RunOps(l, a + b) == RunOps(RunOps(l, a), b)
    ensures RunOps(l, []) == l && RunOps(l, [op]) == Apply(l, op)
    decreases |a|
  {
    if a == [] {
      assert a + b == b;
    } else {
      RunsCompose(Apply(l, a[0]), a[1..], b, op);
      assert (a + b)[1..] == a[1..] + b;
    }
  }

  lemma {:induction false} RunKeepsInv(l: Exchange, ops: seq<Op>)
    requires ExchangeInv(l)
    ensures ExchangeInv(RunOps(l, ops))
    decreases |ops|
  {
    if ops != [] {
      OpKeepsInv(l, ops[0]);
      RunKeepsInv(Apply(l, ops[0]), ops[1..]);
    }
  }

  /**
   In every reachable cache the requests are sorted by id, the expiry list holds exactly those with a timeout,
   each once and by date, and the counter is right; every accepted request is in it or has left, exactly once.
   */
  lemma ReachableCache(first: Id, ops: seq<Op>)
    ensures var l := RunOps(Fresh(first), ops);
            && ExchangeInv(l)
            && (ProperDates(l.cache.srs) ==>
                  forall i, j :: 0 <= i <= j < |l.cache.exp| ==>
                    && l.cache.exp[i].req.timeout.Some? && l.cache.exp[j].req.timeout.Some?
                    && Date(l.cache.exp[i]) <= Date(l.cache.exp[j]))
  {
    RunKeepsInv(Fresh(first), ops);
    var c := RunOps(Fresh(first), ops).cache;
    if ProperDates(c.srs) {
      forall i, j | 0 <= i <= j < |c.exp|
        ensures c.exp[i].req.timeout.Some? && c.exp[j].req.timeout.Some? && Date(c.exp[i]) <= Date(c.exp[j])
      {
        ExpiryIsByDate(c, i, j);
      }
    }
  }

  lemma {:induction false} SerialsIncreaseOnce(a: seq<SentReq>, x: SentReq)
    requires forall i, j :: 0 <= i < j < |a| ==> a[i].serial < a[j].serial
    ensures multiset(a)[x] <= 1
  {
    if a != [] {
      assert a == [a[0]] + a[1..];
      SerialsIncreaseOnce(a[1..], x);
      if a[0] == x {
        assert x !in a[1..];
      }
    }
  }

  lemma {:induction false} LeaversAt(d: seq<Departure>)
    ensures |Leavers(d)| == |d| && forall i :: 0 <= i < |d| ==> Leavers(d)[i] == d[i].sr
  {
    if d != [] {
      LeaversAt(d[1..]);
    }
  }

  /** No request leaves twice: the allocation numbers of the departures are pairwise different. */
  lemma LeavesAtMostOnce(l: Exchange, i: nat, j: nat)
    requires ExchangeInv(l) && i < j < |l.left|
    ensures l.left[i].sr.serial != l.left[j].sr.serial
  {
    LeaversAt(l.left);
    PartHasDistinctSerials(l.accepted, Leavers(l.left), i, j);
  }

  /**
   What comes out is what went in: a request handed back is one of the messages given to do_send, original id
   and all, except that failover sets its T flag.
   */
  lemma HandedBackAsGiven(l: Exchange, k: nat)
    requires ExchangeInv(l) && k < |l.left| && !l.left[k].how.Freed?
    ensures exists m :: m in l.given && l.left[k].Handed() ==
              Some(if l.left[k].how.FailedOver? then m.(retransmit := true) else m)
  {
    LeaversAt(l.left);
    var sr := l.left[k].sr;
    assert sr in multiset(Leavers(l.left));
    assert sr in multiset(l.accepted);
    var i :| 0 <= i < |l.accepted| && l.accepted[i] == sr;
    assert l.given[i] in l.given;
  }

  /** What failover makes of the cache: all leave, in order, the routable ones failed over and the others freed. */
  lemma {:induction false} FailoverDepartures(s: seq<SentReq>, i: nat)
    requires i < |s|
    ensures |All(s)| == |s| && All(s)[i] == Departure(s[i], if s[i].req.routable then FailedOver else Freed)
  {
    if i > 0 {
      FailoverDepartures(s[1..], i - 1);
    } else if |s| > 1 {
      FailoverDepartures(s[1..], 0);
    }
  }

  lemma PartHasDistinctSerials(a: seq<SentReq>, b: seq<SentReq>, i: nat, j: nat)
    requires forall i, j :: 0 <= i < j < |a| ==> a[i].serial < a[j].serial
    requires multiset(b) <= multiset(a) && i < j < |b|
    ensures b[i].serial != b[j].serial
  {
    assert b[i] in multiset(b) && b[j] in multiset(b);
    assert b[i] in a && b[j] in a;
    if b[i] == b[j] {
      TwiceInMultiset(b, i, j);
      SerialsIncreaseOnce(a, b[i]);
    }
  }

  lemma TwiceInMultiset(b: seq<SentReq>, i: nat, j: nat)
    requires i < j < |b| && b[i] == b[j]
    ensures multiset(b)[b[i]] >= 2
  {
    assert b == b[..i] + [b[i]] + b[i + 1..j] + [b[j]] + b[j + 1..];
  }

  /**
   A store is refused exactly when a request is still outstanding whose id was allocated a multiple of 2^32
   allocations earlier.
   */
  lemma CollidesExactlyWhen(l: Exchange)
    requires ExchangeInv(l)
    ensures l.nextHbh in ById(l.cache.srs) <==>
            exists sr :: sr in l.cache.srs && (l.issued - sr.serial) % WORD == 0
  {
    ByIdMeaning(l.cache.srs, -1);
    forall sr | sr in l.cache.srs
      ensures sr.req.hbh == l.nextHbh <==> (l.issued - sr.serial) % WORD == 0
    {
      SameIdExactlyWhen(l.first, l.issued, sr.serial);
    }
  }

  lemma SameIdExactlyWhen(first: Id, m: nat, n: nat)
    ensures IdAt(first, n) == IdAt(first, m) <==> (m - n) % WORD == 0
  {
    IdAtIsModular(first, m);
    IdAtIsModular(first, n);
    SameMod(first + m, first + n, WORD);
    assert first + m - (first + n) == m - n;
  }
}
