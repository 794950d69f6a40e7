/** What every run of a peer keeps: who is in service, and where its routable messages may be. */
module PeerInvariants {

  import opened Clock
  import opened Lists
  import opened SentRequests
  import opened SentRequestRuns
  import opened PeerMachine

  // ---- What the handlers keep, whatever they decide about the messages ----

  /** Linked exactly with an out thread, only in OPEN; and a connection in use is there. */
  ghost predicate Served(c: Control) {
    && (c.active <==> c.out != Stopped)
    && (c.active ==> c.state == Open)
    && (InService(c.state) ==> c.cnx)
  }

  /** An operation of the state machine: it brings in no routable request and leaves p_tosend to the out thread. */
  predicate Quiet(w: Work) {
    !w.SendFirst? && (w.Queue? || w.Direct? ==> !(w.m.request && w.m.routable))
  }

  ghost predicate AllQuiet(ws: Works) {
    ws.Then? ==> Quiet(ws.w) && AllQuiet(ws.before)
  }

  /** The peer has nothing routable after these operations, given if it had nothing before. */
  ghost predicate Clears(ws: Works, clear: bool) {
    match ws
    case Nothing => clear
    case Then(before, w) => w.FailAll? || (!w.Queue? && Clears(before, clear))
  }

  ghost predicate MayHoldRoutable(s: State) {
    s == Open || s == ClosingGrace
  }

  ghost predicate ControlInv(c: Control, clear: bool) {
    && Served(c) && AllQuiet(c.todo)
    && (!MayHoldRoutable(c.state) ==> Clears(c.todo, clear))
  }

  lemma DoKeeps(c: Control, w: Work, clear: bool)
    requires ControlInv(c, clear) && Quiet(w) && (w.Queue? ==> c.state == Open)
    ensures ControlInv(Do(c, w), clear)
  {
  }

  lemma OutSendKeeps(c: Control, request: bool, clear: bool)
    requires ControlInv(c, clear)
    ensures ControlInv(OutSend(c, LinkLocal(request)), clear)
  {
  }

  lemma LeaveOpenKeeps(c: Control, to: State, clear: bool)
    requires ControlInv(c, clear) && c.state == Open && to != Open && (InService(to) ==> c.cnx)
    ensures ControlInv(LeaveOpen(c.(state := to), to == ClosingGrace), clear)
  {
  }

  lemma ChangedKeeps(c: Control, to: State, clear: bool)
    requires ControlInv(c, clear) && (InService(to) ==> c.cnx)
    ensures ControlInv(Changed(c, to), clear)
  {
    if c.state == Open {
      if to != Open {
        LeaveOpenKeeps(c, to, clear);
      }
    } else if c.state == ClosingGrace {
      assert ControlInv(Do(c.(state := to), FailAll), clear);
    }
  }

  lemma CleanedUpKeeps(c: Control, clear: bool)
    requires ControlInv(c, clear)
    ensures ControlInv(CleanedUp(c), clear) && ControlInv(Ended(c), clear) && ControlInv(Reset(c), clear)
  {
    var c' := if c.state != Zombie then Changed(c, Closed) else c;
    ChangedKeeps(c, Closed, clear);
    DoKeeps(c', Unlink, clear);
  }

  lemma SendDwrKeeps(c: Control, clear: bool)
    requires ControlInv(c, clear)
    ensures ControlInv(SendDwr(c), clear)
  {
  }

  lemma ReadyKeeps(c: Control, clear: bool)
    requires ControlInv(c, clear) && c.cnx
    ensures ControlInv(Ready(c), clear)
  {
    if c.flags.cnxPb {
      var c' := Changed(c, Reopen);
      ChangedKeeps(c, Reopen, clear);
      SendDwrKeeps(c'.(flags := c'.flags.(reopenCnt := 1, cnxPb := false)), clear);
    } else {
      ChangedKeeps(c, Open, clear);
    }
  }

  lemma DwTimedOutKeeps(c: Control, clear: bool)
    requires ControlInv(c, clear)
    ensures ControlInv(DwTimedOut(c), clear)
  {
    ChangedKeeps(c, Suspect, clear);
    SendDwrKeeps(c, clear);
  }

  lemma DwHandledKeeps(c: Control, request: bool, clear: bool)
    requires ControlInv(c, clear)
    ensures ControlInv(DwHandled(c, request), clear)
  {
    var c1 := if request then OutSend(c, LinkLocal(false)) else c.(flags := c.flags.(dwPending := false));
    OutSendKeeps(c, false, clear);
    if c1.state == Reopen {
      var c2 := c1.(flags := c1.flags.(reopenCnt := Bump(c1.flags.reopenCnt)));
      SendDwrKeeps(c2, clear);
      ChangedKeeps(c2, Open, clear);
    }
  }

  lemma DpHandledKeeps(c: Control, request: bool, pending: bool, clear: bool)
    requires ControlInv(c, clear)
    ensures ControlInv(DpHandled(c, request, pending), clear)
  {
    var c' := Changed(c, if pending || c.reqin != 0 then ClosingGrace else Closing);
    ChangedKeeps(c, if pending || c.reqin != 0 then ClosingGrace else Closing, clear);
    CleanedUpKeeps(c', clear);
    OutSendKeeps(c', false, clear);
    CleanedUpKeeps(OutSend(c', LinkLocal(false)), clear);
  }

  lemma SecuredKeeps(c: Control, security: Security, clear: bool)
    requires ControlInv(c, clear) && c.state == WaitCea
    ensures ControlInv(Secured(c, security), clear)
  {
    match security
    case Disabled =>
    case Handshake(ok) =>
      ChangedKeeps(c, OpenHandshake, clear);
      if ok && c.cnx {
        ReadyKeeps(Changed(c, OpenHandshake), clear);
      }
    case AlreadySecure => if c.cnx { ReadyKeeps(c, clear); } else { CleanedUpKeeps(c, clear); }
    case Clear => if c.cnx { ReadyKeeps(c, clear); } else { CleanedUpKeeps(c, clear); }
  }

  lemma CeReceivedKeeps(c: Control, request: bool, cea: Cea, clear: bool)
    requires ControlInv(c, clear)
    ensures ControlInv(CeReceived(c, request, cea), clear)
  {
    if request {
      OutSendKeeps(c, false, clear);
    } else if c.state == WaitCea {
      match cea
      case Unsaved =>
      case TooBusy => CleanedUpKeeps(c, clear);
      case ElectionLost =>
      case OtherCode => CleanedUpKeeps(c, clear);
      case Success(security) => SecuredKeeps(c, security, clear);
    }
  }

  lemma ReceiverProcessedKeeps(c: Control, v: Verdict, clear: bool)
    requires ControlInv(c, clear) && !InService(c.state)
    ensures ControlInv(ReceiverProcessed(c, v), clear)
  {
    var c0 := c.(cnx := true, receiver := false);
    var c1 := OutSend(c0, LinkLocal(false));
    OutSendKeeps(c0, false, clear);
    match v
    case Refused =>
    case NoHandshake(unordered) =>
      if c1.flags.cnxPb || !unordered {
        ReadyKeeps(c1, clear);
      } else {
        ChangedKeeps(c1, OpenNew, clear);
        DwTimedOutKeeps(Changed(c1, OpenNew), clear);
      }
    case HandshakeFailed => ChangedKeeps(c1, OpenHandshake, clear);
    case HandshakeDone(rejected) =>
      ChangedKeeps(c1, OpenHandshake, clear);
      ReadyKeeps(Changed(c1, OpenHandshake), clear);
  }

  lemma ReceiverOrEndKeeps(c: Control, v: Verdict, clear: bool)
    requires ControlInv(c, clear) && !InService(c.state)
    ensures ControlInv(ReceiverOrEnd(c, v), clear)
  {
    CleanedUpKeeps(c, clear);
    ReceiverProcessedKeeps(c, v, clear);
  }

  lemma ToWaitCeaKeeps(c: Control, clear: bool)
    requires ControlInv(c, clear)
    ensures ControlInv(ToWaitCea(c), clear)
  {
    ChangedKeeps(c.(cnx := true), WaitCea, clear);
  }

  lemma NewConnectionKeeps(c: Control, won: bool, v: Verdict, clear: bool)
    requires ControlInv(c, clear) && !InService(c.state)
    ensures ControlInv(NewConnection(c, won, v), clear)
  {
    var c1 := OutSend(c, LinkLocal(true));
    OutSendKeeps(c, true, clear);
    if c1.state != WaitCnxAckElec {
      ToWaitCeaKeeps(c1, clear);
    } else if won {
      ReceiverProcessedKeeps(c1, v, clear);
    } else {
      ToWaitCeaKeeps(c1.(receiver := false), clear);
    }
  }

  lemma NewCerKeeps(c: Control, won: bool, v: Verdict, clear: bool)
    requires ControlInv(c, clear)
    ensures ControlInv(NewCer(c, won, v), clear)
  {
    if c.state == Closed {
      ReceiverOrEndKeeps(c.(receiver := true), v, clear);
    } else if c.state == WaitCnxAck {
      ChangedKeeps(c.(receiver := true), WaitCnxAckElec, clear);
    } else if c.state == WaitCea {
      ReceiverOrEndKeeps(c.(cnx := false, receiver := true), v, clear);
    }
  }

  lemma LinkLocalHandledKeeps(c: Control, request: bool, parsing: Parsing, pending: bool, clear: bool)
    requires ControlInv(c, clear)
    ensures ControlInv(LinkLocalHandled(c, request, parsing, pending), clear)
  {
    match parsing
    case ParseFailure => CleanedUpKeeps(c, clear);
    case ErrorAnswered => OutSendKeeps(c, false, clear);
    case InvalidAnswer =>
    case Understood(cmd) =>
      match cmd
      case CapabilitiesExchange(cea) => CeReceivedKeeps(c, request, cea, clear);
      case DisconnectPeer =>
        DpHandledKeeps(c, request, pending, clear);
        CleanedUpKeeps(DpHandled(c, request, pending), clear);
      case DeviceWatchdog(_) =>
        DwHandledKeeps(c, request, clear);
        CleanedUpKeeps(c, clear);
      case Unknown => OutSendKeeps(c, false, clear);
  }

  lemma HandledKeeps(c: Control, m: Received, pending: bool, clear: bool)
    requires m.Parsed? && ControlInv(c, clear)
    ensures ControlInv(Handled(c, m, pending), clear)
  {
    var c' := if c.state == OpenNew then Changed(c, Open) else c;
    if c.state == OpenNew {
      ChangedKeeps(c, Open, clear);
    }
    LinkLocalHandledKeeps(c', m.request, m.parsing, pending, clear);
  }

  lemma MessageReceivedKeeps(c: Control, m: Received, l: Lookup, clear: bool)
    requires ControlInv(c, clear)
    ensures ControlInv(MessageReceived(c, m, l), clear)
  {
    if m.Parsed? {
      HandledKeeps(c, m, l.pending, clear);
      DoKeeps(c, Take(m.hbh), clear);
      HandledKeeps(Do(c, Take(m.hbh)), m, l.pending, clear);
    }
  }

  lemma OnCnxErrorKeeps(c: Control, v: Verdict, clear: bool)
    requires ControlInv(c, clear)
    ensures ControlInv(OnCnxError(c, v), clear)
  {
    if c.state == WaitCnxAckElec {
      ReceiverOrEndKeeps(c, v, clear);
    } else if c.state == Closed || c.state == Closing || c.state == ClosingGrace {
      CleanedUpKeeps(c, clear);
    } else {
      CleanedUpKeeps(WithProblem(c), clear);
    }
  }

  lemma OnTimeoutKeeps(c: Control, v: Verdict, clear: bool)
    requires ControlInv(c, clear)
    ensures ControlInv(OnTimeout(c, v), clear)
  {
    if c.state == WaitCnxAckElec {
      ReceiverOrEndKeeps(c, v, clear);
    } else if InService(c.state) {
      DwTimedOutKeeps(c, clear);
    } else if c.state == Closed {
      ChangedKeeps(c, WaitCnxAck, clear);
    } else if c.state == Suspect {
      CleanedUpKeeps(WithProblem(c), clear);
    } else if c.state == ClosingGrace {
      CleanedUpKeeps(c, clear);
    } else {
      CleanedUpKeeps(c, clear);
    }
  }

  /** Each turn of the state machine, on any event in any state, keeps the invariant. */
  lemma TurnKeeps(c: Control, e: Event, l: Lookup, clear: bool)
    requires ControlInv(c, clear)
    ensures ControlInv(Turn(c, e, l), clear)
  {
    match e
    case Terminate =>
      CleanedUpKeeps(c, clear);
      ChangedKeeps(c, ClosingGrace, clear);
      OutSendKeeps(Changed(c, ClosingGrace), true, clear);
    case MsgRecv(m) => MessageReceivedKeeps(c, m, l, clear);
    case CnxError(v) => OnCnxErrorKeeps(c, v, clear);
    case CnxEpChange =>
    case CnxShutdown => CleanedUpKeeps(c, clear);
    case CnxIncoming(won, v) => NewCerKeeps(c, won, v, clear);
    case CnxEstablished(won, v) =>
      if c.state == WaitCnxAck || c.state == WaitCnxAckElec {
        NewConnectionKeeps(c, won, v, clear);
      }
    case CnxFailed(v) =>
      CleanedUpKeeps(c, clear);
      if c.state == WaitCnxAckElec {
        ReceiverOrEndKeeps(c, v, clear);
      }
    case PsmTimeout(v) => OnTimeoutKeeps(c, v, clear);
  }

  // ---- What that means for the messages ----

  /** No message waits in the send queue or is set aside, and no routable request is in the sent-request cache. */
  ghost predicate NothingRoutable(ms: Messages) {
    ms.tosend == [] && ms.tofailover == [] && Routable(ms.link.cache.srs) == []
  }

  lemma {:induction false} InsertLocal(s: seq<SentReq>, sr: SentReq)
    requires Routable(s) == [] && !sr.req.routable
    ensures Routable(InsertById(s, sr)) == []
  {
    if s != [] && s[0].req.hbh <= sr.req.hbh {
      InsertLocal(s[1..], sr);
    }
  }

  lemma {:induction false} WithoutLocal(s: seq<SentReq>, id: Id)
    requires Routable(s) == []
    ensures Routable(Without(s, id)) == []
  {
    if s != [] {
      WithoutLocal(s[1..], id);
    }
  }

  lemma FailAllClears(ms: Messages)
    ensures NothingRoutable(Worked(ms, FailAll))
  {
  }

  lemma LinkClears(ms: Messages, m: Message)
    requires NothingRoutable(ms) && (m.request ==> !m.routable)
    ensures NothingRoutable(Worked(ms, Direct(m)))
  {
    if m.request {
      InsertLocal(ms.link.cache.srs, Allocated(ms.link, m));
    }
  }

  lemma TakeClears(ms: Messages, hbh: Id)
    requires NothingRoutable(ms)
    ensures NothingRoutable(Worked(ms, Take(hbh)))
  {
    WithoutLocal(ms.link.cache.srs, hbh);
  }

  lemma ExpireClears(ms: Messages, now: Timespec)
    requires NothingRoutable(ms)
    ensures NothingRoutable(Worked(ms, Expire(now)))
  {
    if ms.link.cache.exp != [] {
      WithoutLocal(ms.link.cache.srs, ms.link.cache.exp[0].req.hbh);
    }
  }

  lemma {:induction false} RoutableTwice(s: seq<SentReq>)
    ensures Routable(Routable(s)) == Routable(s)
  {
    if s != [] {
      RoutableTwice(s[1..]);
    }
  }

  lemma WorkClears(ms: Messages, w: Work)
    requires NothingRoutable(ms) && Quiet(w) && !w.Queue?
    ensures NothingRoutable(Worked(ms, w))
  {
    match w
    case Direct(m) => LinkClears(ms, m);
    case SetAside =>
    case FailAll => FailAllClears(ms);
    case Unlink => RoutableTwice(ms.link.cache.srs);
    case Take(hbh) => TakeClears(ms, hbh);
    case Expire(now) => ExpireClears(ms, now);
  }

  lemma {:induction false} ClearsMeans(ms: Messages, ws: Works, clear: bool)
    requires AllQuiet(ws) && Clears(ws, clear) && (clear ==> NothingRoutable(ms))
    ensures NothingRoutable(WorkedAll(ms, ws))
  {
    if ws.Then? {
      if ws.w.FailAll? {
        FailAllClears(WorkedAll(ms, ws.before));
      } else {
        ClearsMeans(ms, ws.before, clear);
        WorkClears(WorkedAll(ms, ws.before), ws.w);
      }
    }
  }

  // ---- Whole runs ----

  ghost predicate PeerInv(p: Peer) {
    p.c.todo == Nothing && Served(p.c) && (!MayHoldRoutable(p.c.state) ==> NothingRoutable(p.ms))
  }

  lemma SettleKeeps(c: Control, ms: Messages, clear: bool)
    requires ControlInv(c, clear) && (clear ==> NothingRoutable(ms))
    ensures PeerInv(Settle(c, ms))
  {
    if !MayHoldRoutable(c.state) {
      ClearsMeans(ms, c.todo, clear);
    }
  }

  lemma PsmKeeps(p: Peer, e: Event)
    requires PeerInv(p)
    ensures PeerInv(Settle(Turn(p.c, e, LookedUp(p.ms, e)), p.ms))
  {
    var clear := !MayHoldRoutable(p.c.state);
    TurnKeeps(p.c, e, LookedUp(p.ms, e), clear);
    SettleKeeps(Turn(p.c, e, LookedUp(p.ms, e)), p.ms, clear);
  }

  /** One operation by another thread, with the state left as it is. */
  lemma OneWorkKeeps(p: Peer, c: Control, w: Work)
    requires PeerInv(p) && c.todo == Then(Nothing, w) && Served(c) && c.state == p.c.state
    requires !MayHoldRoutable(c.state) ==> Quiet(w) && !w.Queue?
    ensures PeerInv(Settle(c, p.ms))
  {
    assert WorkedAll(p.ms, c.todo) == Worked(WorkedAll(p.ms, Nothing), w);
    if !MayHoldRoutable(c.state) {
      WorkClears(p.ms, w);
    }
  }

  lemma StepKeeps(p: Peer, s: Step)
    requires PeerInv(p) && Enabled(p, s)
    ensures PeerInv(After(p, s))
  {
    match s
    case Start =>
    case Psm(e) => PsmKeeps(p, e);
    case Restart =>
    case RouteRequest(m) => OneWorkKeeps(p, Decided(p, s), Queue(m));
    case RouteAnswer(m) =>
      if p.c.cnx {
        OneWorkKeeps(p, Decided(p, s), if p.c.state == Open then Queue(m) else Direct(m));
      }
    case OutSends(_) => OneWorkKeeps(p, Decided(p, s), SendFirst);
    case OutPurges => OneWorkKeeps(p, Decided(p, s), SetAside);
    case Expires(now) => OneWorkKeeps(p, Decided(p, s), Expire(now));
    case ValidatorAnswers(_) =>
  }

  lemma {:induction false} RunKeeps(ps: seq<Peer>, steps: seq<Step>, k: nat)
    requires PeerRun(ps, steps) && k < |ps|
    ensures PeerInv(ps[k])
  {
    if k > 0 {
      RunKeeps(ps, steps, k - 1);
      StepKeeps(ps[k - 1], steps[k - 1]);
    }
  }

  /**
   In every run, a peer is in the active list exactly if it has an out thread, and only in OPEN; in OPEN it has a
   connection; and in any state other than OPEN or CLOSING_GRACE no routable message is left with it.
   */
  lemma ServiceOnlyInOpen(ps: seq<Peer>, steps: seq<Step>, k: nat)
    requires PeerRun(ps, steps) && k < |ps|
    ensures var c := ps[k].c;
            && (c.active <==> c.out != Stopped) && (c.active ==> c.state == Open)
            && (c.state == Open || c.state == OpenNew || c.state == Reopen ==> c.cnx)
            && (c.state != Open && c.state != ClosingGrace ==> NothingRoutable(ps[k].ms))
  {
    RunKeeps(ps, steps, k);
  }
}
