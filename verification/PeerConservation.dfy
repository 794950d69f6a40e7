/**
 Conservation of messages: failover accounts for every message it moves, and in every run of a peer each
 routable request handed to it is, at any time, in exactly one place.
 */
module PeerConservation {

  import opened Clock
  import opened Lists
  import opened SentRequests
  import opened SentRequestRuns
  import opened PeerMachine
  import opened PeerInvariants

  // ---- One failover ----

  lemma {:induction false} RoutableAndLocal(s: seq<Message>)
    ensures multiset(s) == multiset(RoutableOnly(s)) + multiset(LocalOnly(s))
    ensures forall m :: m in RoutableOnly(s) ==> m.routable
    ensures forall m :: m in LocalOnly(s) ==> !m.routable
  {
    if s != [] {
      assert s == [s[0]] + s[1..];
      RoutableAndLocal(s[1..]);
    }
  }

  lemma {:induction false} RequeuedAt(s: seq<SentReq>)
    ensures |Requeued(s)| == |Routable(s)| && |Requests(Local(s))| == |Local(s)|
    ensures |s| == |Routable(s)| + |Local(s)|
    ensures forall i :: 0 <= i < |Routable(s)| ==> Requeued(s)[i] == Routable(s)[i].Restored().(retransmit := true)
    ensures forall m :: m in Requests(Local(s)) ==> !m.routable
  {
    if s != [] {
      RequeuedAt(s[1..]);
    }
  }

  ghost predicate AllOf(s: seq<Message>, routable: bool) {
    forall m :: m in s ==> m.routable == routable
  }

  lemma Appended<T>(s: seq<T>, t: seq<T>)
    ensures s <= s + t && (s + t)[|s|..] == t
  {
  }

  /** What failover gives back to routing is routable, what it frees is not, and nothing else happens to them. */
  lemma FailoverSplits(ms: Messages)
    requires AllOf(ms.tofailover, true)
    ensures AllOf(RoutableOnly(ms.tosend) + ms.tofailover + Requeued(ms.link.cache.srs), true)
    ensures AllOf(LocalOnly(ms.tosend) + Requests(Local(ms.link.cache.srs)), false)
  {
    RoutableAndLocal(ms.tosend);
    RequeuedAt(ms.link.cache.srs);
  }

  lemma {:induction false} SplitSizes(s: seq<Message>)
    ensures |s| == |RoutableOnly(s)| + |LocalOnly(s)|
  {
    if s != [] {
      SplitSizes(s[1..]);
    }
  }

  /**
   Failover conserves messages: all three stores end empty, every message of theirs went to the routing queue or
   was freed, only messages that are not routable were freed, and only routable ones went back to routing.
   */
  lemma FailoverConserves(ms: Messages)
    requires AllOf(ms.tofailover, true)
    ensures var r := FailoverAll(ms);
            && r.tosend == [] && r.tofailover == [] && r.link.cache.srs == []
            && ms.outgoing <= r.outgoing && AllOf(r.outgoing[|ms.outgoing|..], true)
            && ms.freed <= r.freed && AllOf(r.freed[|ms.freed|..], false)
            && |r.outgoing| + |r.freed|
               == |ms.outgoing| + |ms.freed| + |ms.tosend| + |ms.tofailover| + |ms.link.cache.srs|
  {
    FailoverSplits(ms);
    FailoverSizes(ms);
    FailoverAppends(ms);
  }

  lemma FailoverAppends(ms: Messages)
    ensures var r := FailoverAll(ms);
            && ms.outgoing <= r.outgoing && ms.freed <= r.freed
            && r.outgoing[|ms.outgoing|..] == RoutableOnly(ms.tosend) + ms.tofailover + Requeued(ms.link.cache.srs)
            && r.freed[|ms.freed|..] == LocalOnly(ms.tosend) + Requests(Local(ms.link.cache.srs))
  {
    var requeued := RoutableOnly(ms.tosend) + ms.tofailover + Requeued(ms.link.cache.srs);
    var dropped := LocalOnly(ms.tosend) + Requests(Local(ms.link.cache.srs));
    assert FailoverAll(ms).outgoing == ms.outgoing + requeued;
    assert FailoverAll(ms).freed == ms.freed + dropped;
    Appended(ms.outgoing, requeued);
    Appended(ms.freed, dropped);
  }

  lemma FailoverSizes(ms: Messages)
    ensures var r := FailoverAll(ms);
            |r.outgoing| + |r.freed|
            == |ms.outgoing| + |ms.freed| + |ms.tosend| + |ms.tofailover| + |ms.link.cache.srs|
  {
    SplitSizes(ms.tosend);
    RequeuedAt(ms.link.cache.srs);
  }

  /** The messages a occur in s, in this order. */
  ghost predicate InOrder(a: seq<Message>, s: seq<Message>) {
    || a == []
    || (s != [] && ((a[0] == s[0] && InOrder(a[1..], s[1..])) || InOrder(a, s[1..])))
  }

  lemma {:induction false} RoutableInOrder(s: seq<Message>)
    ensures InOrder(RoutableOnly(s), s)
  {
    if s != [] {
      var rest := RoutableOnly(s[1..]);
      RoutableInOrder(s[1..]);
      assert ([s[0]] + rest)[1..] == rest && [] + rest == rest;
    }
  }

  /**
   Which messages, and in what order: the routable ones of the send queue, as they stood there; then those set
   aside; then the routable sent requests, by increasing id, each with its original id and the T flag. Every
   message of the send queue and of the cache is either among these or freed.
   */
  lemma FailoverInOrder(ms: Messages)
    requires SortedById(ms.link.cache.srs)
    ensures var r, srs := FailoverAll(ms), ms.link.cache.srs;
            && r.outgoing == ms.outgoing + RoutableOnly(ms.tosend) + ms.tofailover + Requeued(srs)
            && InOrder(RoutableOnly(ms.tosend), ms.tosend)
            && |Requeued(srs)| == |Routable(srs)| && SortedById(Routable(srs))
            && (forall i :: 0 <= i < |Routable(srs)| ==>
                  Requeued(srs)[i] == Routable(srs)[i].Restored().(retransmit := true))
            && r.freed == ms.freed + LocalOnly(ms.tosend) + Requests(Local(srs))
            && multiset(ms.tosend) == multiset(RoutableOnly(ms.tosend)) + multiset(LocalOnly(ms.tosend))
            && multiset(srs) == multiset(Routable(srs)) + multiset(Local(srs))
  {
    RoutableInOrder(ms.tosend);
    RoutableAndLocal(ms.tosend);
    RequeuedAt(ms.link.cache.srs);
    RoutableSorted(ms.link.cache.srs, -1);
    SplitMultiset(ms.link.cache.srs);
  }

  // ---- Counting the routable requests with a given body ----

  function One(m: Message, body: nat): nat {
    if m.request && m.routable && m.body == body then 1 else 0
  }

  function Copies(s: seq<Message>, body: nat): nat {
    if s == [] then 0 else One(s[0], body) + Copies(s[1..], body)
  }

  function Cached(s: seq<SentReq>, body: nat): nat {
    if s == [] then 0 else One(s[0].req, body) + Cached(s[1..], body)
  }

  /** The requests that got their answer, or were given to their expiry callback. */
  function Settled(d: seq<Departure>, body: nat): nat {
    if d == [] then 0
    else (if d[0].how.Fetched? || d[0].how.Expired? then One(d[0].sr.req, body) else 0) + Settled(d[1..], body)
  }

  /** Everywhere a routable request handed to the peer can be, other than freed. */
  function Held(ms: Messages, body: nat): nat {
    Copies(ms.tosend, body) + Copies(ms.tofailover, body) + Cached(ms.link.cache.srs, body)
    + Settled(ms.link.left, body) + Copies(ms.outgoing, body)
  }

  lemma {:induction false} CopiesConcat(a: seq<Message>, b: seq<Message>, body: nat)
    ensures Copies(a + b, body) == Copies(a, body) + Copies(b, body)
  {
    if a == [] {
      assert a + b == b;
    } else {
      assert (a + b)[1..] == a[1..] + b;
      CopiesConcat(a[1..], b, body);
    }
  }

  lemma {:induction false} SettledConcat(a: seq<Departure>, b: seq<Departure>, body: nat)
    ensures Settled(a + b, body) == Settled(a, body) + Settled(b, body)
  {
    if a == [] {
      assert a + b == b;
    } else {
      assert (a + b)[1..] == a[1..] + b;
      SettledConcat(a[1..], b, body);
    }
  }

  lemma {:induction false} CopiesSplit(s: seq<Message>, body: nat)
    ensures Copies(RoutableOnly(s), body) == Copies(s, body) && Copies(LocalOnly(s), body) == 0
  {
    if s != [] {
      CopiesSplit(s[1..], body);
      CopiesConcat(if s[0].routable then [s[0]] else [], RoutableOnly(s[1..]), body);
      CopiesConcat(if s[0].routable then [] else [s[0]], LocalOnly(s[1..]), body);
    }
  }

  lemma {:induction false} CachedSplit(s: seq<SentReq>, body: nat)
    ensures Copies(Requeued(s), body) == Cached(s, body) == Cached(Routable(s), body)
    ensures Copies(Requests(Local(s)), body) == 0
  {
    if s != [] {
      CachedSplit(s[1..], body);
    }
  }

  lemma {:induction false} FailoverSettlesNothing(s: seq<SentReq>, body: nat)
    ensures Settled(All(s), body) == 0 && Settled(AllFreed(s), body) == 0
  {
    if s != [] {
      FailoverSettlesNothing(s[1..], body);
    }
  }

  lemma {:induction false} CachedInserted(s: seq<SentReq>, sr: SentReq, body: nat)
    ensures Cached(InsertById(s, sr), body) == Cached(s, body) + One(sr.req, body)
  {
    if s == [] || sr.req.hbh < s[0].req.hbh {
      assert ([sr] + s)[1..] == s;
    } else {
      CachedInserted(s[1..], sr, body);
    }
  }

  lemma {:induction false} CachedWithout(s: seq<SentReq>, lo: int, i: nat, body: nat)
    requires SortedAbove(s, lo) && i < |s|
    ensures Cached(s, body) == Cached(Without(s, s[i].req.hbh), body) + One(s[i].req, body)
  {
    if i == 0 {
      WithoutBelow(s[1..], s[0].req.hbh, s[0].req.hbh);
    } else {
      SortedAboveAt(s, lo, 0);
      CachedWithout(s[1..], s[0].req.hbh, i - 1, body);
    }
  }

  // ---- What each operation does to the counts ----

  /** The routable request, if any, that an operation brings in. */
  function Entering(w: Work, body: nat): nat {
    if w.Queue? || w.Direct? then One(w.m, body) else 0
  }

  /** The message do_send refuses, because its id is still in use; its caller frees it. */
  function Refusing(ms: Messages, w: Work, body: nat): nat {
    if ms.link.nextHbh !in ById(ms.link.cache.srs) then 0
    else if w.Direct? then One(w.m, body)
    else if w.SendFirst? && ms.tosend != [] then One(ms.tosend[0], body)
    else 0
  }

  /** One operation neither loses nor doubles a routable request, and frees one only for a duplicate id. */
  ghost predicate Balanced(ms: Messages, w: Work, body: nat) {
    var r := Worked(ms, w);
    && Held(r, body) + Refusing(ms, w, body) == Held(ms, body) + Entering(w, body)
    && Copies(r.freed, body) == Copies(ms.freed, body) + Refusing(ms, w, body)
  }

  lemma FailoverRequeues(ms: Messages, body: nat)
    ensures Copies(FailoverAll(ms).outgoing, body)
            == Copies(ms.outgoing, body) + Copies(ms.tosend, body) + Copies(ms.tofailover, body)
             + Cached(ms.link.cache.srs, body)
  {
    var a, b := ms.outgoing + RoutableOnly(ms.tosend), Requeued(ms.link.cache.srs);
    CopiesSplit(ms.tosend, body);
    CachedSplit(ms.link.cache.srs, body);
    CopiesConcat(ms.outgoing, RoutableOnly(ms.tosend), body);
    CopiesConcat(a, ms.tofailover, body);
    CopiesConcat(a + ms.tofailover, b, body);
  }

  lemma FailoverFreesNone(ms: Messages, body: nat)
    ensures Copies(FailoverAll(ms).freed, body) == Copies(ms.freed, body)
  {
    var a, b := LocalOnly(ms.tosend), Requests(Local(ms.link.cache.srs));
    CopiesSplit(ms.tosend, body);
    CachedSplit(ms.link.cache.srs, body);
    CopiesConcat(ms.freed, a, body);
    CopiesConcat(ms.freed + a, b, body);
  }

  lemma FailoverEmpties(ms: Messages, body: nat)
    ensures var r := FailoverAll(ms);
            && Settled(r.link.left, body) == Settled(ms.link.left, body)
            && Cached(r.link.cache.srs, body) == Copies(r.tosend, body) == Copies(r.tofailover, body) == 0
  {
    SettledConcat(ms.link.left, All(ms.link.cache.srs), body);
    FailoverSettlesNothing(ms.link.cache.srs, body);
  }

  lemma FailoverKeepsHeld(ms: Messages, body: nat)
    ensures Held(FailoverAll(ms), body) == Held(ms, body)
  {
    FailoverRequeues(ms, body);
    FailoverEmpties(ms, body);
  }

  lemma FailAllBalanced(ms: Messages, body: nat)
    ensures Balanced(ms, FailAll, body)
  {
    FailoverKeepsHeld(ms, body);
    FailoverFreesNone(ms, body);
  }

  lemma UnlinkBalanced(ms: Messages, body: nat)
    ensures Balanced(ms, Unlink, body)
  {
    var srs := ms.link.cache.srs;
    CachedSplit(srs, body);
    SettledConcat(ms.link.left, AllFreed(Local(srs)), body);
    FailoverSettlesNothing(Local(srs), body);
    CopiesConcat(ms.freed, Requests(Local(srs)), body);
    var r := Worked(ms, Unlink);
    assert r.link.cache.srs == Routable(srs) && r.link.left == ms.link.left + AllFreed(Local(srs));
    assert r.freed == ms.freed + Requests(Local(srs));
  }

  lemma DirectBalanced(ms: Messages, m: Message, body: nat)
    ensures Balanced(ms, Direct(m), body)
  {
    CachedInserted(ms.link.cache.srs, Allocated(ms.link, m), body);
    CopiesConcat(ms.freed, [m], body);
  }

  lemma SendFirstBalanced(ms: Messages, body: nat)
    ensures Balanced(ms, SendFirst, body)
  {
    if ms.tosend != [] {
      DirectBalanced(ms.(tosend := ms.tosend[1..]), ms.tosend[0], body);
    }
  }

  lemma QueueBalanced(ms: Messages, m: Message, body: nat)
    ensures Balanced(ms, Queue(m), body)
  {
    CopiesConcat(ms.tosend, [m], body);
  }

  lemma SetAsideBalanced(ms: Messages, body: nat)
    ensures Balanced(ms, SetAside, body)
  {
    if ms.tosend != [] {
      CopiesConcat(ms.tofailover, [ms.tosend[0]], body);
      CopiesConcat(ms.freed, [ms.tosend[0]], body);
    }
  }

  lemma LeaverCounted(ms: Messages, i: nat, how: How, body: nat)
    requires SortedById(ms.link.cache.srs) && i < |ms.link.cache.srs| && (how.Fetched? || how.Expired?)
    ensures var sr := ms.link.cache.srs[i];
            Cached(Without(ms.link.cache.srs, sr.req.hbh), body) + Settled(ms.link.left + [Departure(sr, how)], body)
            == Cached(ms.link.cache.srs, body) + Settled(ms.link.left, body)
  {
    CachedWithout(ms.link.cache.srs, -1, i, body);
    SettledConcat(ms.link.left, [Departure(ms.link.cache.srs[i], how)], body);
  }

  lemma TakeBalanced(ms: Messages, hbh: Id, body: nat)
    requires SortedById(ms.link.cache.srs)
    ensures Balanced(ms, Take(hbh), body)
  {
    var srs := ms.link.cache.srs;
    if hbh in ById(srs) {
      ByIdMeaning(srs, -1);
      var i :| 0 <= i < |srs| && srs[i] == ById(srs)[hbh];
      LeaverCounted(ms, i, Fetched, body);
    }
  }

  lemma ExpireBalanced(ms: Messages, now: Timespec, body: nat)
    requires Valid(ms.link.cache)
    ensures Balanced(ms, Expire(now), body)
  {
    var srs := ms.link.cache.srs;
    if ms.link.cache.exp != [] {
      assert ms.link.cache.exp[0] in ms.link.cache.exp;
      var i :| 0 <= i < |srs| && srs[i] == ms.link.cache.exp[0];
      LeaverCounted(ms, i, Expired, body);
    }
  }

  lemma WorkBalanced(ms: Messages, w: Work, body: nat)
    requires Valid(ms.link.cache)
    ensures Balanced(ms, w, body)
  {
    match w
    case Queue(m) => QueueBalanced(ms, m, body);
    case Direct(m) => DirectBalanced(ms, m, body);
    case SendFirst => SendFirstBalanced(ms, body);
    case SetAside => SetAsideBalanced(ms, body);
    case FailAll => FailAllBalanced(ms, body);
    case Unlink => UnlinkBalanced(ms, body);
    case Take(hbh) => TakeBalanced(ms, hbh, body);
    case Expire(now) => ExpireBalanced(ms, now, body);
  }

  lemma WorkKeepsExchange(ms: Messages, w: Work)
    requires ExchangeInv(ms.link)
    ensures ExchangeInv(Worked(ms, w).link)
  {
    match w
    case Queue(_) =>
    case Direct(m) => OpKeepsInv(ms.link, Send(m));
    case SendFirst => if ms.tosend != [] { OpKeepsInv(ms.link, Send(ms.tosend[0])); }
    case SetAside =>
    case FailAll => OpKeepsInv(ms.link, Failover);
    case Unlink => OpKeepsInv(ms.link, Disconnect);
    case Take(hbh) => OpKeepsInv(ms.link, Answer(hbh));
    case Expire(now) => OpKeepsInv(ms.link, Expiry(now));
  }

  // ---- What a step of the peer does to them ----

  /** Operations of the state machine lose nothing, double nothing and free nothing routable. */
  lemma {:induction false} QuietWorkConserves(ms: Messages, ws: Works, body: nat)
    requires ExchangeInv(ms.link) && AllQuiet(ws)
    ensures var r := WorkedAll(ms, ws);
            && ExchangeInv(r.link) && Held(r, body) == Held(ms, body) && Copies(r.freed, body) == Copies(ms.freed, body)
  {
    if ws.Then? {
      var before := WorkedAll(ms, ws.before);
      QuietWorkConserves(ms, ws.before, body);
      WorkKeepsExchange(before, ws.w);
      WorkBalanced(before, ws.w, body);
    }
  }

  /** A turn of the state machine only has operations of its own done. */
  lemma TurnQuiet(p: Peer, e: Event)
    requires PeerInv(p)
    ensures AllQuiet(Turn(p.c, e, LookedUp(p.ms, e)).todo)
  {
    TurnKeeps(p.c, e, LookedUp(p.ms, e), !MayHoldRoutable(p.c.state));
  }

  /** What a step brings in, and what it gives up because the id the link counter is at is still in use. */
  function Routed(s: Step, body: nat): nat {
    if s.RouteRequest? then One(s.m, body) else 0
  }

  function Collided(p: Peer, s: Step, body: nat): nat
    requires Enabled(p, s)
  {
    if s.OutSends? && p.ms.link.nextHbh in ById(p.ms.link.cache.srs) then One(p.ms.tosend[0], body) else 0
  }

  ghost predicate Conserved(p: Peer, s: Step, ms: Messages, body: nat)
    requires Enabled(p, s)
  {
    && Held(ms, body) + Collided(p, s, body) == Held(p.ms, body) + Routed(s, body)
    && Copies(ms.freed, body) == Copies(p.ms.freed, body) + Collided(p, s, body)
  }

  /** The step of another thread is one operation. */
  lemma StepWork(p: Peer, s: Step, w: Work, body: nat)
    requires Enabled(p, s) && ExchangeInv(p.ms.link)
    requires Entering(w, body) == Routed(s, body) && Refusing(p.ms, w, body) == Collided(p, s, body)
    ensures Conserved(p, s, Worked(p.ms, w), body) && ExchangeInv(Worked(p.ms, w).link)
  {
    WorkBalanced(p.ms, w, body);
    WorkKeepsExchange(p.ms, w);
  }

  lemma OneWork(ms: Messages, w: Work)
    ensures WorkedAll(ms, Then(Nothing, w)) == Worked(ms, w)
  {
  }

  lemma OtherThreadsConserve(p: Peer, s: Step, body: nat)
    requires PeerInv(p) && Enabled(p, s) && !s.Psm? && ExchangeInv(p.ms.link)
    ensures var ms := WorkedAll(p.ms, Decided(p, s).todo); Conserved(p, s, ms, body) && ExchangeInv(ms.link)
  {
    match s
    case RouteRequest(m) =>
      StepWork(p, s, Queue(m), body);
      OneWork(p.ms, Queue(m));
    case RouteAnswer(m) =>
      var w := if p.c.state == Open then Queue(m) else Direct(m);
      if p.c.cnx {
        StepWork(p, s, w, body);
        OneWork(p.ms, w);
      }
    case OutSends(_) =>
      StepWork(p, s, SendFirst, body);
      OneWork(p.ms, SendFirst);
    case OutPurges =>
      StepWork(p, s, SetAside, body);
      OneWork(p.ms, SetAside);
    case Expires(now) =>
      StepWork(p, s, Expire(now), body);
      OneWork(p.ms, Expire(now));
    case _ =>
  }

  lemma StepConserves(p: Peer, s: Step, body: nat)
    requires PeerInv(p) && Enabled(p, s) && ExchangeInv(p.ms.link)
    ensures Conserved(p, s, After(p, s).ms, body) && ExchangeInv(After(p, s).ms.link)
  {
    if s.Psm? {
      TurnQuiet(p, s.e);
      QuietWorkConserves(p.ms, Turn(p.c, s.e, LookedUp(p.ms, s.e)).todo, body);
    } else {
      OtherThreadsConserve(p, s, body);
    }
  }

  // ---- Whole runs ----

  function Total(ms: Messages, body: nat): nat {
    Held(ms, body) + Copies(ms.freed, body)
  }

  lemma StepTotal(p: Peer, s: Step, p': Peer, body: nat)
    requires PeerInv(p) && Enabled(p, s) && p' == After(p, s) && ExchangeInv(p.ms.link)
    ensures Total(p'.ms, body) == Total(p.ms, body) + Routed(s, body) && ExchangeInv(p'.ms.link)
  {
    StepConserves(p, s, body);
  }

  function AllRouted(steps: seq<Step>, body: nat): nat {
    if steps == [] then 0 else AllRouted(steps[..|steps| - 1], body) + Routed(steps[|steps| - 1], body)
  }

  lemma {:induction false} TotalsMatch(ps: seq<Peer>, steps: seq<Step>, body: nat)
    requires |ps| == |steps| + 1 && ExchangeInv(ps[0].ms.link) && Total(ps[0].ms, body) == 0
    requires forall i :: 0 <= i < |steps| && ExchangeInv(ps[i].ms.link) ==>
               && ExchangeInv(ps[i + 1].ms.link)
               && Total(ps[i + 1].ms, body) == Total(ps[i].ms, body) + Routed(steps[i], body)
    ensures ExchangeInv(ps[|steps|].ms.link) && Total(ps[|steps|].ms, body) == AllRouted(steps, body)
  {
    var n := |steps|;
    if n > 0 {
      TotalsMatch(ps[..n], steps[..n - 1], body);
      assert ps[..n][n - 1] == ps[n - 1];
    }
  }

  /**
   In every run, at its end (so at every moment), the routable requests handed to the peer with any given body
   are all there, each exactly once: waiting, set aside, awaiting an answer, settled, given back to routing, or
   freed.
   */
  lemma NothingLostNothingDoubled(ps: seq<Peer>, steps: seq<Step>, body: nat)
    requires PeerRun(ps, steps)
    ensures ExchangeInv(ps[|steps|].ms.link) && Total(ps[|steps|].ms, body) == AllRouted(steps, body)
  {
    forall i | 0 <= i < |steps| && ExchangeInv(ps[i].ms.link)
      ensures ExchangeInv(ps[i + 1].ms.link)
      ensures Total(ps[i + 1].ms, body) == Total(ps[i].ms, body) + Routed(steps[i], body)
    {
      RunKeeps(ps, steps, i);
      StepTotal(ps[i], steps[i], ps[i + 1], body);
    }
    TotalsMatch(ps, steps, body);
  }

  /** A routable request is freed by a step exactly when do_send finds its id still in use. */
  lemma FreedExactlyOnCollision(p: Peer, s: Step, body: nat)
    requires PeerInv(p) && Enabled(p, s) && ExchangeInv(p.ms.link)
    ensures Copies(After(p, s).ms.freed, body) != Copies(p.ms.freed, body) <==>
            && s.OutSends? && One(p.ms.tosend[0], body) == 1
            && p.ms.link.nextHbh in ById(p.ms.link.cache.srs)
  {
    StepConserves(p, s, body);
  }

  // ---- What is set aside ----

  lemma WorkSetsAsideRoutable(ms: Messages, w: Work)
    requires AllOf(ms.tofailover, true)
    ensures AllOf(Worked(ms, w).tofailover, true)
  {
  }

  lemma {:induction false} WorksSetAsideRoutable(ms: Messages, ws: Works)
    requires AllOf(ms.tofailover, true)
    ensures AllOf(WorkedAll(ms, ws).tofailover, true)
  {
    if ws.Then? {
      WorksSetAsideRoutable(ms, ws.before);
      WorkSetsAsideRoutable(WorkedAll(ms, ws.before), ws.w);
    }
  }

  lemma StepSetsAsideRoutable(p: Peer, s: Step)
    requires Enabled(p, s) && AllOf(p.ms.tofailover, true)
    ensures AllOf(After(p, s).ms.tofailover, true)
  {
    if s.Psm? {
      WorksSetAsideRoutable(p.ms, Turn(p.c, s.e, LookedUp(p.ms, s.e)).todo);
    } else {
      WorksSetAsideRoutable(p.ms, Decided(p, s).todo);
    }
  }

  /** In every run p_tofailover only ever holds routable messages, so failover may requeue all of it unseen. */
  lemma {:induction false} SetAsideIsRoutable(ps: seq<Peer>, steps: seq<Step>, k: nat)
    requires PeerRun(ps, steps) && k <= |steps|
    ensures AllOf(ps[k].ms.tofailover, true)
  {
    if k > 0 {
      SetAsideIsRoutable(ps, steps, k - 1);
      StepSetsAsideRoutable(ps[k - 1], steps[k - 1]);
    }
  }
}
