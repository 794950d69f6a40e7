/**
 The two peers of the election are peers of the state machine: each step of a peer there is the turn of p_psm_th
 that the same event causes, in whatever state of the election.
 */
module ElectionPeers {

  import opened SentRequests
  import opened PeerMachine
  import opened PeerWatchdog
  import E = Election

  /**
   A peer without deletion pending, in the state of a side, with the connections of that state. After a connection
   problem the state of service is REOPEN.
   */
  ghost predicate Matches(c: Control, s: E.Side) {
    && !c.flags.delete
    && match s
       case Closed => c.state == Closed && !c.cnx
       case WaitCnxAck => c.state == WaitCnxAck && !c.cnx
       case WaitCnxAckElec => c.state == WaitCnxAckElec && !c.cnx && c.receiver
       case WaitCea => c.state == WaitCea && c.cnx
       case Open(_) => (c.state == Open || c.state == Reopen) && c.cnx
  }

  /** The receiver side is accepted: the peer is in service on the connection it received. */
  lemma ReceiverOpens(c: Control)
    requires !NoReceiver(c) && !c.flags.delete
    ensures var r := ReceiverProcessed(c, NoHandshake(false));
            Matches(r, E.Open(false)) && r.state == if c.flags.cnxPb then Reopen else Open
  {
    var c1 := OutSend(c.(cnx := true, receiver := false), LinkLocal(false));
    ChangedControl(c1, Open);
    ChangedControl(c1, Reopen);
  }

  lemma AttemptIsATurn(c: Control, v: Verdict, l: Lookup)
    requires Matches(c, E.Closed)
    ensures Matches(Turn(c, PsmTimeout(v), l), E.WaitCnxAck)
  {
  }

  lemma EstablishedIsATurn(c: Control, n: E.Net, x: bool, won: bool, l: Lookup)
    requires E.Enabled(n, E.Established(x)) && Matches(c, n.Side(x))
    ensures Matches(Turn(c, CnxEstablished(won, NoHandshake(false)), l), E.OnEstablished(n, x, won).Side(x))
  {
    var c1 := OutSend(c, LinkLocal(true));
    if c.state != WaitCnxAckElec {
      ChangedControl(c1.(cnx := true), WaitCea);
    } else if won {
      ReceiverOpens(c1);
    } else {
      ChangedControl(c1.(receiver := false).(cnx := true), WaitCea);
    }
  }

  lemma CerIsATurn(c: Control, n: E.Net, i: bool, won: bool, l: Lookup)
    requires Matches(c, n.Side(!i))
    ensures Matches(Turn(c, CnxIncoming(won, NoHandshake(false)), l), E.OnCer(n, i, won).Side(!i))
  {
    match n.Side(!i)
    case Closed => ReceiverOpens(c.(receiver := true));
    case WaitCnxAck =>
      ChangedControl(c.(receiver := true), WaitCnxAckElec);
      assert Changed(c.(receiver := true), WaitCnxAckElec).receiver;
    case WaitCea =>
      if won {
        ReceiverOpens(c.(cnx := false, receiver := true));
      }
    case _ =>
  }

  function Code(r: E.Result): Cea {
    match r
    case Success => Success(Clear)
    case ElectionLost => ElectionLost
    case UnableToComply => OtherCode
  }

  /** A CEA with this result, as it is received. */
  function CeaReceived(r: E.Result, hbh: Id): Event {
    MsgRecv(Parsed(false, hbh, false, Understood(CapabilitiesExchange(Code(r)))))
  }

  lemma CeaIsATurn(c: Control, n: E.Net, i: bool, r: E.Result, hbh: Id, pending: bool)
    requires Matches(c, n.Side(i))
    ensures Matches(Turn(c, CeaReceived(r, hbh), Lookup(true, pending)), E.OnCea(n, i, r).Side(i))
  {
    if c.state != Closed {
      CeaMoves(Do(c, Take(hbh)), n, i, r);
    }
  }

  lemma CeaMoves(c: Control, n: E.Net, i: bool, r: E.Result)
    requires Matches(c, n.Side(i))
    ensures Matches(CeReceived(c, false, Code(r)), E.OnCea(n, i, r).Side(i))
  {
    if c.state == WaitCea {
      ChangedControl(c, Open);
      ChangedControl(c, Reopen);
      CleanedUpControl(c);
    }
  }

  lemma ErrorResets(c: Control, v: Verdict, l: Lookup)
    requires c.state in {WaitCnxAck, WaitCea, Open, Reopen} && !c.flags.delete
    ensures var r := Turn(c, CnxError(v), l); r.state == Closed && !r.cnx && r.flags.cnxPb && !r.flags.delete
  {
  }

  lemma ErrorIsATurn(c: Control, n: E.Net, x: bool, l: Lookup)
    requires Matches(c, n.Side(x))
    ensures Matches(Turn(c, CnxError(NoHandshake(false)), l), E.OnError(n, x).Side(x))
  {
    match n.Side(x)
    case Closed => CleanedUpControl(c);
    case WaitCnxAckElec => ReceiverOpens(c);
    case _ => ErrorResets(c, NoHandshake(false), l);
  }

  /** Handling the first event of the queue, whichever it is, is a turn. */
  lemma HandlingIsATurn(c: Control, n: E.Net, x: bool, won: bool, hbh: Id, pending: bool)
    requires E.Enabled(n, E.Handle(x)) && Matches(c, n.Side(x))
    ensures var e := match n.peers.At(x).queue.first
                     case Cer => CnxIncoming(won, NoHandshake(false))
                     case Cea(r) => CeaReceived(r, hbh)
                     case Error => CnxError(NoHandshake(false));
            Matches(Turn(c, e, Lookup(true, pending)), E.Handled(n, x, won).Side(x))
  {
    var q := n.peers.At(x).queue;
    var n' := n.Queued(x, q.later);
    assert n'.Side(x) == n.Side(x);
    match q.first
    case Cer => CerIsATurn(c, n', !x, won, Lookup(true, pending));
    case Cea(r) => CeaIsATurn(c, n', x, r, hbh, pending);
    case Error => ErrorIsATurn(c, n', x, Lookup(true, pending));
  }

  // ---- An error that comes late ----

  /**
   The event of a connection error does not say which connection it is about: handled by a peer that has one, it
   always closes it, in whatever state.
   */
  lemma ErrorClosesWhatIsInUse(c: Control, v: Verdict, l: Lookup)
    requires c.cnx
    ensures !Turn(c, CnxError(v), l).cnx
  {
  }

  /**
   So the error of the connection a peer gave up, when it won the election in WAITCEA, closes the elected one if
   and only if it is handled after the CER: before it, the peer is still on the connection the error is about.
   */
  lemma LateErrorClosesElected(c: Control, v: Verdict, l: Lookup)
    requires Matches(c, E.WaitCea)
    ensures var elected := Turn(c, CnxIncoming(true, NoHandshake(false)), l);
            && elected.state == (if c.flags.cnxPb then Reopen else Open) && elected.cnx
            && var late := Turn(elected, CnxError(v), l); late.state == Closed && !late.cnx && late.flags.cnxPb
    ensures var early := Turn(Turn(c, CnxError(v), l), CnxIncoming(true, NoHandshake(false)), l);
            early.state == Reopen && early.cnx
  {
    ReceiverOpens(c.(cnx := false, receiver := true));
    ErrorResets(Turn(c, CnxIncoming(true, NoHandshake(false)), l), v, l);
    ErrorResets(c, v, l);
    ReceiverOpens(Turn(c, CnxError(v), l).(receiver := true));
  }
}
