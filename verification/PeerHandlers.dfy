/** What single events make of a peer: disconnection (p_dp.c), and handshakes that fail (p_ce.c). */
module PeerHandlers {

  import opened SentRequests
  import opened SentRequestRuns
  import opened PeerMachine
  import opened PeerInvariants
  import opened PeerWatchdog

  // ---- Disconnection ----

  predicate Busy(c: Control, pending: bool) {
    pending || c.reqin != 0
  }

  /**
   A DPR in OPEN while requests are pending here or there: the peer leaves service but fails nothing over, so
   that the answers still under way find their requests. The DPA is sent at once, and changes nothing.
   */
  lemma GraceKeepsPending(c: Control, pending: bool, ms: Messages)
    requires Served(c) && c.state == Open && c.todo == Nothing && Busy(c, pending)
    ensures var r := DpHandled(c, true, pending);
            && r.state == ClosingGrace && !r.active && r.out == Stopped && r.cnx
            && Settle(r, ms).ms == ms
  {
    var r := DpHandled(c, true, pending);
    assert r.todo == Then(Nothing, Direct(LinkLocal(false)));
    assert WorkedAll(ms, r.todo) == DoSend(WorkedAll(ms, Nothing), LinkLocal(false));
  }

  /** With nothing pending the DPR closes the connection, after the DPA; what waits to be sent is failed over. */
  lemma DprCloses(c: Control, ms: Messages)
    requires Served(c) && c.state == Open && c.todo == Nothing && c.reqin == 0
    ensures var r := DpHandled(c, true, false);
            r.state == Closed && !r.cnx && !r.active && NothingRoutable(Settle(r, ms).ms)
  {
    var r := DpHandled(c, true, false);
    DpHandledKeeps(c, true, false, false);
    ClearsMeans(ms, r.todo, false);
  }

  /**
   A DPA, in whatever state it comes: while something is pending it only marks the local termination; with
   nothing pending it ends the peer, in every state. It is ignored in none.
   */
  lemma DpaOutcome(c: Control, pending: bool)
    ensures var r := CommandHandled(c, false, DisconnectPeer, pending);
            if Busy(c, pending) && c.state != Closing then r == c.(flags := c.flags.(localTerm := true))
            else r.state == Zombie && !r.cnx
  {
    ChangedControl(c, Closing);
  }

  // ---- Handshakes that fail ----

  /** The receiver side is processed, and its handshake fails or the second validation callback refuses the peer. */
  predicate ReceiverShaken(c: Control, v: Verdict) {
    !NoReceiver(c) && (v.HandshakeFailed? || (v.HandshakeDone? && v.rejected && c.cb2))
  }

  /** A CEA leads to a handshake that fails, or that has no connection. */
  predicate CeaShaken(c: Control, m: Received, l: Lookup) {
    && c.state == WaitCea && m.Parsed? && !m.request && !m.routable && l.known
    && m.parsing.Understood? && m.parsing.c.CapabilitiesExchange? && m.parsing.c.cea.Success?
    && m.parsing.c.cea.security.Handshake? && !(m.parsing.c.cea.security.ok && c.cnx)
  }

  /** The events that leave a handshake failed. */
  predicate Shaken(c: Control, e: Event, l: Lookup) {
    match e
    case MsgRecv(m) => CeaShaken(c, m, l)
    case CnxIncoming(won, v) =>
      || (c.state == Closed && ReceiverShaken(c.(receiver := true), v))
      || (c.state == WaitCea && won && ReceiverShaken(c.(cnx := false, receiver := true), v))
    case CnxEstablished(won, v) => c.state == WaitCnxAckElec && won && ReceiverShaken(c, v)
    case CnxError(v) => c.state == WaitCnxAckElec && ReceiverShaken(c, v)
    case CnxFailed(v) => c.state == WaitCnxAckElec && ReceiverShaken(c, v)
    case PsmTimeout(v) => c.state == WaitCnxAckElec && ReceiverShaken(c, v)
    case _ => false
  }

  lemma ReadyLeaves(c: Control)
    ensures Ready(c).state == if c.flags.cnxPb then Reopen else Open
  {
    ChangedControl(c, Open);
    ChangedControl(c, Reopen);
  }

  lemma ReceiverLeaves(c: Control, v: Verdict)
    requires c.state != OpenHandshake
    ensures ReceiverOrEnd(c, v).state == OpenHandshake <==> ReceiverShaken(c, v)
  {
    if NoReceiver(c) {
      CleanedUpControl(c);
    } else {
      ReceiverShakes(c, v);
    }
  }

  lemma ReceiverShakes(c: Control, v: Verdict)
    requires c.state != OpenHandshake
    ensures ReceiverProcessed(c, v).state == OpenHandshake <==>
            v.HandshakeFailed? || (v.HandshakeDone? && v.rejected && c.cb2)
  {
    var c1 := OutSend(c.(cnx := true, receiver := false), LinkLocal(false));
    OutSendControl(c.(cnx := true, receiver := false), LinkLocal(false));
    match v
    case Refused =>
    case NoHandshake(unordered) =>
      ReadyLeaves(c1);
      ChangedControl(c1, OpenNew);
      DwTimedOutControl(Changed(c1, OpenNew));
    case HandshakeFailed => ChangedControl(c1, OpenHandshake);
    case HandshakeDone(rejected) =>
      ChangedControl(c1, OpenHandshake);
      ReadyLeaves(Changed(c1, OpenHandshake));
  }

  lemma CeaLeaves(c: Control, cea: Cea)
    requires c.state == WaitCea
    ensures CeReceived(c, false, cea).state == OpenHandshake <==>
            cea.Success? && cea.security.Handshake? && !(cea.security.ok && c.cnx)
  {
    match cea
    case Unsaved =>
    case TooBusy => CleanedUpControl(c);
    case ElectionLost =>
    case OtherCode => CleanedUpControl(c);
    case Success(security) =>
      ReadyLeaves(c);
      CleanedUpControl(c);
      ChangedControl(c, OpenHandshake);
      ReadyLeaves(Changed(c, OpenHandshake));
  }

  /** No other message leads to OPEN_HANDSHAKE. */
  lemma LinkLocalLeaves(c: Control, request: bool, parsing: Parsing, pending: bool)
    requires c.state != OpenHandshake
    ensures LinkLocalHandled(c, request, parsing, pending).state == OpenHandshake ==>
              c.state == WaitCea && !request && parsing.Understood? && parsing.c.CapabilitiesExchange?
  {
    match parsing
    case ParseFailure => CleanedUpControl(c);
    case ErrorAnswered => OutSendControl(c, LinkLocal(false));
    case InvalidAnswer =>
    case Understood(cmd) =>
      match cmd
      case CapabilitiesExchange(_) => OutSendControl(c, LinkLocal(false));
      case DisconnectPeer => DisconnectLeaves(c, request, pending);
      case DeviceWatchdog(ok) => WatchdogLeaves(c, request, ok, pending);
      case Unknown => OutSendControl(c, LinkLocal(false));
  }

  lemma WatchdogLeaves(c: Control, request: bool, stateIdOk: bool, pending: bool)
    requires c.state != OpenHandshake
    ensures CommandHandled(c, request, DeviceWatchdog(stateIdOk), pending).state != OpenHandshake
  {
    CleanedUpControl(c);
    DwHandledControl(c, request);
  }

  lemma DisconnectLeaves(c: Control, request: bool, pending: bool)
    requires c.state != OpenHandshake
    ensures CommandHandled(c, request, DisconnectPeer, pending).state != OpenHandshake
  {
    var to := if Busy(c, pending) then ClosingGrace else Closing;
    var c' := Changed(c, to);
    ChangedControl(c, to);
    OutSendControl(c', LinkLocal(false));
    CleanedUpControl(if c.cnx then OutSend(c', LinkLocal(false)) else c');
    CleanedUpControl(DpHandled(c, request, pending));
  }

  lemma MessageLeaves(c: Control, m: Received, l: Lookup)
    requires c.state != OpenHandshake
    ensures MessageReceived(c, m, l).state == OpenHandshake <==> CeaShaken(c, m, l)
  {
    if m.Parsed? && c.state != Closed && (m.request || l.known) {
      HandledLeaves(if m.request then c else Do(c, Take(m.hbh)), m, l.pending);
    }
  }

  lemma HandledLeaves(c: Control, m: Received, pending: bool)
    requires c.state != OpenHandshake && m.Parsed?
    ensures Handled(c, m, pending).state == OpenHandshake <==> CeaShaken(c, m, Lookup(true, pending))
  {
    var c' := if c.state == OpenNew then Changed(c, Open) else c;
    ChangedControl(c, Open);
    LinkLocalLeaves(c', m.request, m.parsing, pending);
    if c.state == WaitCea && m.parsing.Understood? && m.parsing.c.CapabilitiesExchange? {
      CeaLeaves(c, m.parsing.c.cea);
    }
  }

  /** A turn leaves the peer in OPEN_HANDSHAKE exactly when a handshake failed in it. */
  lemma HandshakeLeftExactlyWhen(c: Control, e: Event, l: Lookup)
    requires c.state != OpenHandshake
    ensures Turn(c, e, l).state == OpenHandshake <==> Shaken(c, e, l)
  {
    match e
    case Terminate =>
      CleanedUpControl(c);
      ChangedControl(c, ClosingGrace);
      OutSendControl(Changed(c, ClosingGrace), LinkLocal(true));
    case MsgRecv(m) => MessageLeaves(c, m, l);
    case CnxError(v) => ErrorLeaves(c, v);
    case CnxEpChange =>
    case CnxShutdown => CleanedUpControl(c);
    case CnxIncoming(won, v) => NewCerLeaves(c, won, v);
    case CnxEstablished(won, v) => NewConnectionLeaves(c, won, v);
    case CnxFailed(v) =>
      CleanedUpControl(c);
      ReceiverLeaves(c, v);
    case PsmTimeout(v) => TimeoutLeaves(c, v);
  }

  lemma ErrorLeaves(c: Control, v: Verdict)
    requires c.state != OpenHandshake
    ensures OnCnxError(c, v).state == OpenHandshake <==> c.state == WaitCnxAckElec && ReceiverShaken(c, v)
  {
    if c.state == WaitCnxAckElec {
      ReceiverLeaves(c, v);
    } else if c.state == Closed || c.state == Closing || c.state == ClosingGrace {
      CleanedUpControl(c);
    } else {
      CleanedUpControl(WithProblem(c));
    }
  }

  lemma TimeoutLeaves(c: Control, v: Verdict)
    requires c.state != OpenHandshake
    ensures OnTimeout(c, v).state == OpenHandshake <==> c.state == WaitCnxAckElec && ReceiverShaken(c, v)
  {
    if c.state == WaitCnxAckElec {
      ReceiverLeaves(c, v);
    } else if InService(c.state) {
      DwTimedOutControl(c);
    } else if c.state == Closed {
      ChangedControl(c, WaitCnxAck);
    } else if c.state == Suspect {
      CleanedUpControl(WithProblem(c));
    } else {
      CleanedUpControl(c);
    }
  }

  lemma NewCerLeaves(c: Control, won: bool, v: Verdict)
    requires c.state != OpenHandshake
    ensures NewCer(c, won, v).state == OpenHandshake <==> Shaken(c, CnxIncoming(won, v), Lookup(false, false))
  {
    if c.state == Closed {
      ReceiverLeaves(c.(receiver := true), v);
    } else if c.state == WaitCnxAck {
      ChangedControl(c.(receiver := true), WaitCnxAckElec);
    } else if c.state == WaitCea {
      ReceiverLeaves(c.(cnx := false, receiver := true), v);
    }
  }

  lemma NewConnectionLeaves(c: Control, won: bool, v: Verdict)
    requires c.state != OpenHandshake
    ensures NewConnection(c, won, v).state == OpenHandshake <==>
            c.state == WaitCnxAckElec && won && ReceiverShaken(c, v)
  {
    var c1 := OutSend(c, LinkLocal(true));
    OutSendControl(c, LinkLocal(true));
    ChangedControl(c1.(cnx := true), WaitCea);
    ChangedControl(c1.(receiver := false).(cnx := true), WaitCea);
    ReceiverShakes(c1, v);
  }

  /**
   In every run: the assertion at the head of the loop of p_psm_th, that the state is not OPEN_HANDSHAKE, fails at
   a step for the first time exactly when the step before was a turn in which a handshake failed.
   */
  lemma LoopHeadFailsExactlyWhen(ps: seq<Peer>, steps: seq<Step>, k: nat)
    requires PeerRun(ps, steps) && k < |steps| && ps[k].c.state != OpenHandshake
    ensures ps[k + 1].c.state == OpenHandshake <==>
            steps[k].Psm? && Shaken(ps[k].c, steps[k].e, LookedUp(ps[k].ms, steps[k].e))
  {
    StepLeaves(ps[k], steps[k]);
  }

  lemma StepLeaves(p: Peer, s: Step)
    requires Enabled(p, s) && p.c.state != OpenHandshake
    ensures After(p, s).c.state == OpenHandshake <==> s.Psm? && Shaken(p.c, s.e, LookedUp(p.ms, s.e))
  {
    if s.Psm? {
      HandshakeLeftExactlyWhen(p.c, s.e, LookedUp(p.ms, s.e));
    } else if s.RouteAnswer? {
      OutSendControl(p.c.(reqin := p.c.reqin - 1), s.m);
    }
  }

  /** It does fail: a CER comes in, the handshake fails, and the next event finds the peer in OPEN_HANDSHAKE. */
  lemma LoopHeadCanFail(flags: Flags, first: Id) returns (ps: seq<Peer>)
    ensures PeerRun(ps, [Start, Psm(CnxIncoming(false, HandshakeFailed)), Psm(CnxError(Refused))])
    ensures ps[2].c.state == OpenHandshake && !ps[2].c.cnx
  {
    var p0 := Initial(flags, first);
    var p1 := After(p0, Start);
    var p2 := After(p1, Psm(CnxIncoming(false, HandshakeFailed)));
    var p3 := After(p2, Psm(CnxError(Refused)));
    ps := [p0, p1, p2, p3];
  }
}
