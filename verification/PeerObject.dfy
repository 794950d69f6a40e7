/**
 The peer as an object: its state and flags, the queues p_tosend and p_tofailover, the routing queue of the daemon,
 and the sent-request cache with its id counter, all changed in place. The handlers of the state machine decide
 what is to be done to the messages; here it is done, by the loops of peers.c, p_sr.c and p_out.c, and every step
 is proved to keep the invariants of the peer and to lose, double or free no routable request.
 */
module PeerObject {

  import opened Clock
  import opened Lists
  import opened SentRequests
  import opened SentRequestRuns
  import opened PeerInvariants
  import opened PeerConservation
  import M = PeerMachine

  /** What the program does not keep: the first id, the requests that entered and left the cache, what was freed. */
  datatype Past =
    Past(first: Id, given: seq<Message>, accepted: seq<SentReq>, left: seq<Departure>, freed: seq<Message>)

  /** The loop of failover and of the purge: routable messages go to the other queue, the rest is freed, in order. */
  method Partition(from: MessageQueue, into: MessageQueue) returns (dropped: seq<Message>)
    requires from != into
    modifies from, into
    ensures from.items == [] && into.items == old(into.items) + M.RoutableOnly(old(from.items))
    ensures dropped == M.LocalOnly(old(from.items))
  {
    dropped := [];
    while from.items != []
      invariant into.items + M.RoutableOnly(from.items) == old(into.items) + M.RoutableOnly(old(from.items))
      invariant dropped + M.LocalOnly(from.items) == M.LocalOnly(old(from.items))
      decreases |from.items|
    {
      var m := from.Get();
      if m.routable {
        into.PostNoBlock(m);
      } else {
        dropped := dropped + [m];
      }
    }
  }

  class FdPeer {
    var c: M.Control
    const tosend: MessageQueue
    const tofailover: MessageQueue
    const outgoing: MessageQueue
    const link: Outbound
    ghost var past: Past

    ghost function Frame(): set<object> {
      {tosend, tofailover, outgoing, link, link.srl}
    }

    ghost function Msgs(): M.Messages
      reads this, Frame()
    {
      M.Messages(tosend.items, tofailover.items,
                 Exchange(link.srl.Contents(), link.hbh, past.first, link.issued, past.given, past.accepted, past.left),
                 outgoing.items, past.freed)
    }

    ghost function Snapshot(): M.Peer
      reads this, Frame()
    {
      M.Peer(c, Msgs())
    }

    /** The queues are three different ones, and the cache is in order. */
    ghost predicate Ok()
      reads link.srl
    {
      tosend != tofailover && tosend != outgoing && tofailover != outgoing && Valid(link.srl.Contents())
    }

    constructor (flags: M.Flags, outgoing: MessageQueue, link: Outbound)
      requires link.srl.Contents() == EMPTY && link.issued == 0 && outgoing.items == []
      ensures this.outgoing == outgoing && this.link == link && fresh(tosend) && fresh(tofailover)
      ensures Ok() && Snapshot() == M.Initial(flags, link.hbh)
    {
      c := M.Control(M.New, flags, false, M.Stopped, false, false, false, 0, M.Nothing);
      tosend := new MessageQueue();
      tofailover := new MessageQueue();
      this.outgoing, this.link, past := outgoing, link, Past(link.hbh, [], [], [], []);
    }

    // ---- What is done to the messages ----

    /** The first loop of fd_peer_failover_msg: p_tosend. */
    method DrainToSend() returns (dropped: seq<Message>)
      requires tosend != outgoing
      modifies tosend, outgoing
      ensures tosend.items == [] && outgoing.items == old(outgoing.items) + M.RoutableOnly(old(tosend.items))
      ensures dropped == M.LocalOnly(old(tosend.items))
    {
      dropped := Partition(tosend, outgoing);
    }

    /** Its second loop: p_tofailover. */
    method DrainToFailover()
      requires tofailover != outgoing
      modifies tofailover, outgoing
      ensures tofailover.items == [] && outgoing.items == old(outgoing.items) + old(tofailover.items)
    {
      while tofailover.items != []
        invariant outgoing.items + tofailover.items == old(outgoing.items) + old(tofailover.items)
        decreases |tofailover.items|
      {
        var m := tofailover.Get();
        outgoing.PostNoBlock(m);
      }
    }

    /** fd_peer_failover_msg, with fd_p_sr_failover at its end. */
    method FailoverMessages()
      requires Ok()
      modifies `past, Frame()
      ensures Ok() && Msgs() == M.FailoverAll(old(Msgs()))
    {
      var unsent := DrainToSend();
      DrainToFailover();
      ghost var srs := link.srl.srs;
      var dropped := link.srl.Failover(outgoing);
      past := past.(left := past.left + All(srs), freed := past.freed + unsent + dropped);
    }

    /** do_send: a refused request is freed. */
    method SendNow(m: Message) returns (ok: bool)
      requires Ok()
      modifies `past, link, link.srl
      ensures Ok() && Msgs() == M.DoSend(old(Msgs()), m) && ok == !old(M.Collides(Msgs(), m))
    {
      var sent;
      ok, sent := link.DoSend(m);
      if m.request && ok {
        past := past.(given := past.given + [m],
                      accepted := past.accepted + [SentReq(sent, m.hbh, link.issued - 1)]);
      } else if m.request {
        past := past.(freed := past.freed + [m]);
      }
    }

    /** fd_p_sr_on_disconnect. */
    method DropLocal()
      requires Ok()
      modifies `past, link.srl
      ensures Ok() && Msgs() == M.Disconnected(old(Msgs()))
    {
      ghost var srs := link.srl.srs;
      var dropped := link.srl.OnDisconnect();
      past := past.(left := past.left + AllFreed(Local(srs)), freed := past.freed + dropped);
    }

    /** fd_p_sr_fetch, for an answer. */
    method Fetch(hbh: Id)
      requires Ok()
      modifies `past, link.srl
      ensures Ok() && Msgs() == M.Worked(old(Msgs()), M.Take(hbh))
    {
      ghost var srs := link.srl.srs;
      var req := link.srl.Fetch(hbh);
      if req.Some? {
        past := past.(left := past.left + [Departure(ById(srs)[hbh], Fetched)]);
      }
    }

    /** One round of sr_expiry_th. */
    method ExpireFirst(now: Timespec)
      requires Ok()
      modifies `past, link.srl
      ensures Ok() && Msgs() == M.Worked(old(Msgs()), M.Expire(now))
    {
      ghost var exp := link.srl.exp;
      assert exp != [] ==> exp[0] in exp;
      var req := link.srl.Expire(now);
      if req.Some? {
        past := past.(left := past.left + [Departure(exp[0], Expired)]);
      }
    }

    /** One operation, done. */
    method Perform(w: M.Work)
      requires Ok()
      modifies `past, Frame()
      ensures Ok() && Msgs() == M.Worked(old(Msgs()), w)
    {
      match w
      case Queue(m) => tosend.PostNoBlock(m);
      case Direct(m) => var _ := SendNow(m);
      case SendFirst => var _ := SendFirst();
      case SetAside => SetAside();
      case FailAll => FailoverMessages();
      case Unlink => DropLocal();
      case Take(hbh) => Fetch(hbh);
      case Expire(now) => ExpireFirst(now);
    }

    /** The out thread sends the first message of the queue; `ok` is false if do_send refuses it. */
    method SendFirst() returns (ok: bool)
      requires Ok()
      modifies `past, Frame()
      ensures Ok() && Msgs() == M.Worked(old(Msgs()), M.SendFirst)
      ensures ok == (old(tosend.items) == [] || !old(M.Collides(Msgs(), tosend.items[0])))
    {
      if tosend.items == [] {
        return true;
      }
      var m := tosend.Get();
      ok := SendNow(m);
    }

    /** The out thread, after an error, takes one message off the queue. */
    method SetAside()
      requires Ok()
      modifies `past, Frame()
      ensures Ok() && Msgs() == M.Worked(old(Msgs()), M.SetAside)
    {
      if tosend.items == [] {
        return;
      }
      var m := tosend.Get();
      if m.routable {
        tofailover.PostNoBlock(m);
      } else {
        past := past.(freed := past.freed + [m]);
      }
    }

    method PerformAll(ws: M.Works)
      requires Ok()
      modifies `past, Frame()
      ensures Ok() && Msgs() == M.WorkedAll(old(Msgs()), ws)
    {
      if ws.Then? {
        PerformAll(ws.before);
        Perform(ws.w);
      }
    }

    // ---- The steps ----

    /** What every step keeps. */
    ghost predicate Inv()
      reads this, Frame()
    {
      && Ok() && PeerInv(Snapshot()) && ExchangeInv(Msgs().link) && AllOf(tofailover.items, true)
    }

    /** What was decided is done. */
    method Execute(d: M.Control)
      requires Ok()
      modifies this, Frame()
      ensures Ok() && Snapshot() == M.Settle(d, old(Msgs()))
    {
      PerformAll(d.todo);
      c := d.(todo := M.Nothing);
    }

    /** One turn of p_psm_th: an event is handled, and what is decided about the messages is done. */
    method Turn(e: M.Event)
      requires Inv() && M.Enabled(Snapshot(), M.Psm(e))
      modifies this, Frame()
      ensures Inv() && Snapshot() == M.After(old(Snapshot()), M.Psm(e))
      ensures AllConserved(old(Snapshot()), M.Psm(e), Msgs())
    {
      var l := LookUp(e);
      StepDone(Snapshot(), M.Psm(e));
      Execute(M.Turn(c, e, l));
    }

    /** A routing thread hands a request to the peer in OPEN. */
    method RouteRequest(m: Message)
      requires Inv() && M.Enabled(Snapshot(), M.RouteRequest(m))
      modifies this, Frame()
      ensures Inv() && Snapshot() == M.After(old(Snapshot()), M.RouteRequest(m))
      ensures AllConserved(old(Snapshot()), M.RouteRequest(m), Msgs())
    {
      StepDone(Snapshot(), M.RouteRequest(m));
      Execute(M.OutSend(c, m));
    }

    /** Any thread sends an answer. */
    method RouteAnswer(m: Message)
      requires Inv() && !m.request
      modifies this, Frame()
      ensures Inv() && Snapshot() == M.After(old(Snapshot()), M.RouteAnswer(m))
      ensures AllConserved(old(Snapshot()), M.RouteAnswer(m), Msgs())
    {
      StepDone(Snapshot(), M.RouteAnswer(m));
      Execute(if c.cnx then M.OutSend(c.(reqin := c.reqin - 1), m) else c);
    }

    /** The out thread sends a message; `sent` tells if the connection took it. */
    method OutThreadSends(sent: bool)
      requires Inv() && M.Enabled(Snapshot(), M.OutSends(sent))
      modifies this, Frame()
      ensures Inv() && Snapshot() == M.After(old(Snapshot()), M.OutSends(sent))
      ensures AllConserved(old(Snapshot()), M.OutSends(sent), Msgs())
    {
      StepDone(Snapshot(), M.OutSends(sent));
      SendOrStop(sent);
    }

    method SendOrStop(sent: bool)
      requires Ok() && c.todo == M.Nothing && M.Enabled(Snapshot(), M.OutSends(sent))
      modifies this, Frame()
      ensures Ok() && Snapshot() == M.After(old(Snapshot()), M.OutSends(sent))
    {
      OneWork(Msgs(), M.SendFirst);
      var ok := SendFirst();
      c := c.(out := if sent && ok then M.Sending else M.Purging);
    }

    /** A round of the expiry thread. */
    method Expires(now: Timespec)
      requires Inv()
      modifies this, Frame()
      ensures Inv() && Snapshot() == M.After(old(Snapshot()), M.Expires(now))
      ensures AllConserved(old(Snapshot()), M.Expires(now), Msgs())
    {
      StepDone(Snapshot(), M.Expires(now));
      Execute(M.Do(c, M.Expire(now)));
    }

    /** The purge loop of out_thr, while there are messages: routable ones are set aside, the others freed. */
    method OutThreadPurges()
      requires Inv() && c.out == M.Purging
      modifies `past, tosend, tofailover
      ensures Inv() && Msgs() == Purged(old(Msgs()))
      ensures forall body :: Total(Msgs(), body) == Total(old(Msgs()), body)
    {
      ghost var ms := Msgs();
      var dropped := Partition(tosend, tofailover);
      past := past.(freed := past.freed + dropped);
      PurgeKeeps(ms);
    }

    /** fd_peer_get_load_pending and the search for the request of an answer. */
    method LookUp(e: M.Event) returns (l: M.Lookup)
      requires Ok()
      ensures l == M.LookedUp(Msgs(), e)
    {
      l := M.Lookup(false, link.srl.cnt != 0);
      if e.MsgRecv? && e.m.Parsed? && !e.m.request {
        var i, known := link.srl.FindOrNext(e.m.hbh);
        l := M.Lookup(known, if known then link.srl.cnt != 1 else link.srl.cnt != 0);
      }
    }
  }

  /** No routable request is lost, doubled or freed, except one with an id still in use. */
  ghost predicate AllConserved(p: M.Peer, s: M.Step, ms: M.Messages)
    requires M.Enabled(p, s)
  {
    forall body :: Conserved(p, s, ms, body)
  }

  /** What the theorems about steps say of one. */
  lemma StepDone(p: M.Peer, s: M.Step)
    requires PeerInv(p) && ExchangeInv(p.ms.link) && AllOf(p.ms.tofailover, true) && M.Enabled(p, s)
    ensures var r := M.After(p, s);
            && PeerInv(r) && ExchangeInv(r.ms.link) && AllOf(r.ms.tofailover, true) && AllConserved(p, s, r.ms)
  {
    StepKeeps(p, s);
    StepSetsAsideRoutable(p, s);
    StepConserves(p, s, 0);
    forall body ensures Conserved(p, s, M.After(p, s).ms, body) {
      StepConserves(p, s, body);
    }
  }

  ghost function Purged(ms: M.Messages): M.Messages {
    ms.(tosend := [], tofailover := ms.tofailover + M.RoutableOnly(ms.tosend),
        freed := ms.freed + M.LocalOnly(ms.tosend))
  }

  lemma PurgeKeeps(ms: M.Messages)
    ensures AllOf(ms.tofailover, true) ==> AllOf(Purged(ms).tofailover, true)
    ensures forall body :: Total(Purged(ms), body) == Total(ms, body)
  {
    RoutableAndLocal(ms.tosend);
    forall body ensures Total(Purged(ms), body) == Total(ms, body) {
      CopiesSplit(ms.tosend, body);
      CopiesConcat(ms.tofailover, M.RoutableOnly(ms.tosend), body);
      CopiesConcat(ms.freed, M.LocalOnly(ms.tosend), body);
    }
  }
}
