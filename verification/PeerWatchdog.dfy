/**
 How a peer gets into service and out of it (p_psm.c, p_ce.c, p_dw.c). A peer whose capabilities exchange completes
 while pf_cnx_pb is set goes to REOPEN, and leaves it for OPEN exactly on the third watchdog message it handles,
 when the 2-bit counter pf_reopen_cnt wraps around. In OPEN it is linked in the active list exactly if no second
 validation callback was set when it got there. From SUSPECT it never gets back into service.
 */
module PeerWatchdog {

  import opened SentRequests
  import opened SentRequestRuns
  import opened PeerMachine
  import opened PeerInvariants

  /** This event is fd_p_dw_handle, called for a DWR or for the answer to a pending request. */
  predicate WatchdogEvent(e: Event, l: Lookup) {
    && e.MsgRecv? && e.m.Parsed? && !e.m.routable
    && e.m.parsing == Understood(DeviceWatchdog(true))
    && (e.m.request || l.known)
  }

  predicate WatchdogHandled(p: Peer, s: Step) {
    s.Psm? && WatchdogEvent(s.e, LookedUp(p.ms, s.e))
  }

  // ---- How each part of a turn changes the state, the flags and the place in the active list ----

  ghost predicate SameControl(c: Control, r: Control) {
    r.state == c.state && r.flags == c.flags && r.active == c.active && r.cb2 == c.cb2 && r.cnx == c.cnx
  }

  lemma OutSendControl(c: Control, m: Message)
    ensures SameControl(c, OutSend(c, m)) && SameControl(c, TryOutSend(c, m))
  {
  }

  lemma SendDwrControl(c: Control)
    ensures SameControl(c.(flags := c.flags.(dwPending := true)), SendDwr(c))
  {
  }

  lemma ChangedControl(c: Control, to: State)
    ensures var r := Changed(c, to);
            && r.state == to && r.flags == c.flags && r.cnx == c.cnx
            && (to != Open ==> r.cb2 == c.cb2 && (r.active ==> c.active && c.state != Open))
            && (to == Open && c.state != Open && !c.active ==> r.active == !c.cb2)
  {
    if c.state == Open {
      assert LeaveOpen(c.(state := to), to == ClosingGrace).cb2 == c.cb2;
    } else if to == Open {
      assert c.state != ClosingGrace ==> Changed(c, to) == EnterOpen(c.(state := to));
    }
  }

  lemma CleanedUpControl(c: Control)
    ensures CleanedUp(c).state == (if c.state == Zombie then Zombie else Closed)
    ensures CleanedUp(c).flags == c.flags
    ensures Ended(c).state == Zombie
    ensures Reset(c).state == Zombie || Reset(c).state == Closed
  {
    ChangedControl(c, Closed);
  }

  /** What may become of a peer that is not in service. */
  ghost predicate Outcome(c: Control, r: Control) {
    && (InService(r.state) ==> !r.flags.cnxPb)
    && (c.flags.cnxPb ==> r.state != Open && r.state != OpenNew)
    && (r.state == Reopen ==> c.flags.cnxPb && r.flags.reopenCnt == 1)
    && (r.state == Open ==> r.active == !c.cb2)
  }

  /** Entering service: REOPEN with the counter at one if there was a problem, OPEN otherwise. */
  lemma ReadyOutcome(c: Control)
    requires c.state != Open && !c.active
    ensures Outcome(c, Ready(c)) && Ready(c).state == if c.flags.cnxPb then Reopen else Open
  {
    if c.flags.cnxPb {
      var c' := Changed(c, Reopen);
      ChangedControl(c, Reopen);
      SendDwrControl(c'.(flags := c'.flags.(reopenCnt := 1, cnxPb := false)));
    } else {
      ChangedControl(c, Open);
    }
  }

  lemma DwTimedOutControl(c: Control)
    ensures var r := DwTimedOut(c);
            && (r.state == Suspect || SameControl(c.(flags := c.flags.(dwPending := true)), r))
            && r.flags.cnxPb == c.flags.cnxPb && r.flags.reopenCnt == c.flags.reopenCnt
  {
    ChangedControl(c, Suspect);
    SendDwrControl(c);
  }

  lemma ReceiverOutcome(c: Control, v: Verdict)
    requires c.state != Open && !c.active
    ensures v.Refused? ==> ReceiverProcessed(c, v).state == c.state
    ensures !v.Refused? ==> Outcome(c, ReceiverProcessed(c, v))
  {
    var c1 := OutSend(c.(cnx := true, receiver := false), LinkLocal(false));
    OutSendControl(c.(cnx := true, receiver := false), LinkLocal(false));
    match v
    case Refused =>
    case NoHandshake(unordered) =>
      if c1.flags.cnxPb || !unordered {
        ReadyOutcome(c1);
      } else {
        ChangedControl(c1, OpenNew);
        DwTimedOutControl(Changed(c1, OpenNew));
      }
    case HandshakeFailed => ChangedControl(c1, OpenHandshake);
    case HandshakeDone(rejected) =>
      ChangedControl(c1, OpenHandshake);
      ReadyOutcome(Changed(c1, OpenHandshake));
  }

  lemma ReceiverOrEndOutcome(c: Control, v: Verdict)
    requires !InService(c.state) && !c.active
    ensures Outcome(c, ReceiverOrEnd(c, v))
  {
    if NoReceiver(c) {
      CleanedUpControl(c);
    } else {
      ReceiverOutcome(c, v);
    }
  }

  lemma CeaOutcome(c: Control, cea: Cea)
    requires c.state == WaitCea && !c.active
    ensures Outcome(c, CeReceived(c, false, cea))
  {
    match cea
    case Unsaved =>
    case TooBusy => CleanedUpControl(c);
    case ElectionLost =>
    case OtherCode => CleanedUpControl(c);
    case Success(security) =>
      if security.Handshake? {
        ChangedControl(c, OpenHandshake);
        ReadyOutcome(Changed(c, OpenHandshake));
      } else if c.cnx {
        ReadyOutcome(c);
      } else {
        CleanedUpControl(c);
      }
  }

  lemma CeReceivedOutcome(c: Control, request: bool, cea: Cea)
    requires !InService(c.state) && !c.active
    ensures Outcome(c, CeReceived(c, request, cea))
  {
    if request {
      OutSendControl(c, LinkLocal(false));
    } else if c.state == WaitCea {
      CeaOutcome(c, cea);
    }
  }

  lemma DpHandledControl(c: Control, request: bool, pending: bool)
    ensures var r := CommandHandled(c, request, DisconnectPeer, pending);
            !InService(r.state) || SameControl(c.(flags := c.flags.(localTerm := true)), r)
  {
    var to := if pending || c.reqin != 0 then ClosingGrace else Closing;
    var c' := Changed(c, to);
    ChangedControl(c, to);
    if request {
      OutSendControl(c', LinkLocal(false));
      CleanedUpControl(if c.cnx then OutSend(c', LinkLocal(false)) else c');
    }
    CleanedUpControl(DpHandled(c, request, pending));
  }

  lemma DwHandledControl(c: Control, request: bool)
    ensures var r := DwHandled(c, request);
            && r.flags.cnxPb == c.flags.cnxPb
            && (c.state != Reopen ==>
                  r.state == c.state && r.flags.reopenCnt == c.flags.reopenCnt && r.active == c.active)
            && (c.state == Reopen && c.flags.reopenCnt != 3 ==>
                  r.state == Reopen && r.flags.reopenCnt == c.flags.reopenCnt + 1)
            && (c.state == Reopen && c.flags.reopenCnt == 3 ==> r.state == Open && (!c.active ==> r.active == !c.cb2))
  {
    var c1 := if request then OutSend(c, LinkLocal(false)) else c.(flags := c.flags.(dwPending := false));
    OutSendControl(c, LinkLocal(false));
    if c1.state == Reopen {
      var c2 := c1.(flags := c1.flags.(reopenCnt := Bump(c1.flags.reopenCnt)));
      SendDwrControl(c2);
      ChangedControl(c2, Open);
    }
  }

  /** A link-local message other than a watchdog, in service: the peer leaves service or nothing matters. */
  ghost predicate Unmoved(c: Control, r: Control) {
    InService(r.state) ==>
      && r.state == c.state && r.active == c.active
      && r.flags.cnxPb == c.flags.cnxPb && r.flags.reopenCnt == c.flags.reopenCnt
  }

  lemma LinkLocalUnmoved(c: Control, request: bool, parsing: Parsing, pending: bool)
    requires InService(c.state) && parsing != Understood(DeviceWatchdog(true))
    ensures Unmoved(c, LinkLocalHandled(c, request, parsing, pending))
  {
    match parsing
    case ParseFailure => CleanedUpControl(c);
    case ErrorAnswered => OutSendControl(c, LinkLocal(false));
    case InvalidAnswer =>
    case Understood(cmd) =>
      match cmd
      case CapabilitiesExchange(_) => OutSendControl(c, LinkLocal(false));
      case DisconnectPeer => DpHandledControl(c, request, pending);
      case DeviceWatchdog(_) => CleanedUpControl(c);
      case Unknown => OutSendControl(c, LinkLocal(false));
  }

  lemma LinkLocalOutcome(c: Control, request: bool, parsing: Parsing, pending: bool)
    requires !InService(c.state) && !c.active
    ensures Outcome(c, LinkLocalHandled(c, request, parsing, pending))
  {
    match parsing
    case ParseFailure => CleanedUpControl(c);
    case ErrorAnswered => OutSendControl(c, LinkLocal(false));
    case InvalidAnswer =>
    case Understood(cmd) =>
      match cmd
      case CapabilitiesExchange(cea) => CeReceivedOutcome(c, request, cea);
      case DisconnectPeer => DpHandledControl(c, request, pending);
      case DeviceWatchdog(_) =>
        CleanedUpControl(c);
        DwHandledControl(c, request);
      case Unknown => OutSendControl(c, LinkLocal(false));
  }

  lemma MessageOutcome(c: Control, m: Received, l: Lookup)
    requires !InService(c.state) && !c.active
    ensures Outcome(c, MessageReceived(c, m, l))
  {
    if m.Parsed? {
      LinkLocalOutcome(c, m.request, m.parsing, l.pending);
      LinkLocalOutcome(Do(c, Take(m.hbh)), m.request, m.parsing, l.pending);
    }
  }

  lemma NewConnectionOutcome(c: Control, won: bool, v: Verdict)
    requires !InService(c.state) && !c.active
    ensures Outcome(c, NewConnection(c, won, v))
  {
    var c1 := OutSend(c, LinkLocal(true));
    OutSendControl(c, LinkLocal(true));
    ChangedControl(c1.(cnx := true), WaitCea);
    ChangedControl(c1.(receiver := false).(cnx := true), WaitCea);
    ReceiverOutcome(c1, v);
  }

  lemma NewCerOutcome(c: Control, won: bool, v: Verdict)
    requires !InService(c.state) && !c.active
    ensures Outcome(c, NewCer(c, won, v))
  {
    if c.state == Closed {
      ReceiverOrEndOutcome(c.(receiver := true), v);
    } else if c.state == WaitCnxAck {
      ChangedControl(c.(receiver := true), WaitCnxAckElec);
    } else if c.state == WaitCea {
      ReceiverOrEndOutcome(c.(cnx := false, receiver := true), v);
    }
  }

  lemma OnCnxErrorOutcome(c: Control, v: Verdict)
    requires !InService(c.state) && !c.active
    ensures Outcome(c, OnCnxError(c, v))
  {
    if c.state == WaitCnxAckElec {
      ReceiverOrEndOutcome(c, v);
    } else if c.state == Closed || c.state == Closing || c.state == ClosingGrace {
      CleanedUpControl(c);
    } else {
      CleanedUpControl(WithProblem(c));
    }
  }

  lemma OnTimeoutOutcome(c: Control, v: Verdict)
    requires !InService(c.state) && !c.active
    ensures Outcome(c, OnTimeout(c, v))
  {
    if c.state == Closed {
      ChangedControl(c, WaitCnxAck);
    } else if c.state == Suspect {
      CleanedUpControl(WithProblem(c));
    } else if c.state == WaitCnxAckElec {
      ReceiverOrEndOutcome(c, v);
    } else {
      CleanedUpControl(c);
    }
  }

  lemma TurnOutcome(c: Control, e: Event, l: Lookup)
    requires !InService(c.state) && !c.active
    ensures Outcome(c, Turn(c, e, l))
  {
    match e
    case Terminate => CleanedUpControl(c);
    case MsgRecv(m) => MessageOutcome(c, m, l);
    case CnxError(v) => OnCnxErrorOutcome(c, v);
    case CnxEpChange =>
    case CnxShutdown => CleanedUpControl(c);
    case CnxIncoming(won, v) => NewCerOutcome(c, won, v);
    case CnxEstablished(won, v) => NewConnectionOutcome(c, won, v);
    case CnxFailed(v) =>
      CleanedUpControl(c);
      if c.state == WaitCnxAckElec {
        ReceiverOrEndOutcome(c, v);
      }
    case PsmTimeout(v) => OnTimeoutOutcome(c, v);
  }

  // ---- In service ----

  /** What may become of a peer in OPEN or OPEN_NEW. */
  ghost predicate Stays(c: Control, r: Control) {
    && (InService(r.state) ==> r.state != Reopen && r.flags.cnxPb == c.flags.cnxPb)
    && (r.state == Open ==> r.active == if c.state == Open then c.active else !c.cb2)
  }

  lemma LinkLocalStays(c: Control, request: bool, parsing: Parsing, pending: bool)
    requires c.state == Open
    ensures Stays(c, LinkLocalHandled(c, request, parsing, pending))
  {
    if parsing == Understood(DeviceWatchdog(true)) {
      DwHandledControl(c, request);
      CleanedUpControl(c);
    } else {
      LinkLocalUnmoved(c, request, parsing, pending);
    }
  }

  lemma HandledStays(c: Control, m: Received, pending: bool)
    requires (c.state == Open || c.state == OpenNew) && (c.state == OpenNew ==> !c.active) && m.Parsed?
    ensures Stays(c, Handled(c, m, pending))
  {
    var c' := if c.state == OpenNew then Changed(c, Open) else c;
    ChangedControl(c, Open);
    LinkLocalStays(c', m.request, m.parsing, pending);
  }

  lemma MessageStays(c: Control, m: Received, l: Lookup)
    requires (c.state == Open || c.state == OpenNew) && (c.state == OpenNew ==> !c.active)
    ensures Stays(c, MessageReceived(c, m, l))
  {
    if m.Parsed? {
      HandledStays(c, m, l.pending);
      HandledStays(Do(c, Take(m.hbh)), m, l.pending);
    }
  }

  /** The events other than messages, in service: the peer stays as it is or leaves service. */
  lemma OtherEvents(c: Control, e: Event, l: Lookup)
    requires InService(c.state) && !e.MsgRecv?
    ensures Unmoved(c, Turn(c, e, l))
  {
    match e
    case Terminate =>
      ChangedControl(c, ClosingGrace);
      OutSendControl(Changed(c, ClosingGrace), LinkLocal(true));
    case CnxError(v) => CleanedUpControl(WithProblem(c));
    case CnxEpChange =>
    case CnxShutdown => CleanedUpControl(c);
    case CnxIncoming(won, v) =>
    case CnxEstablished(won, v) =>
    case CnxFailed(v) =>
    case PsmTimeout(v) => DwTimedOutControl(c);
  }

  lemma TurnStays(c: Control, e: Event, l: Lookup)
    requires (c.state == Open || c.state == OpenNew) && (c.state == OpenNew ==> !c.active)
    ensures Stays(c, Turn(c, e, l))
  {
    if e.MsgRecv? {
      MessageStays(c, e.m, l);
    } else {
      OtherEvents(c, e, l);
    }
  }

  lemma ReopenMessage(c: Control, m: Received, l: Lookup)
    requires c.state == Reopen && !WatchdogEvent(MsgRecv(m), l)
    ensures Unmoved(c, MessageReceived(c, m, l))
  {
    if m.Parsed? && !m.routable && m.parsing != Understood(DeviceWatchdog(true)) {
      if m.request {
        LinkLocalUnmoved(c, true, m.parsing, l.pending);
      } else {
        LinkLocalUnmoved(Do(c, Take(m.hbh)), false, m.parsing, l.pending);
      }
    }
  }

  lemma ReopenTurn(c: Control, e: Event, l: Lookup)
    requires c.state == Reopen && !WatchdogEvent(e, l)
    ensures Unmoved(c, Turn(c, e, l))
  {
    if e.MsgRecv? {
      ReopenMessage(c, e.m, l);
    } else {
      OtherEvents(c, e, l);
    }
  }

  lemma ReopenWatchdog(c: Control, e: Event, l: Lookup)
    requires c.state == Reopen && c.cnx && WatchdogEvent(e, l)
    ensures var r := Turn(c, e, l);
            && r.flags.cnxPb == c.flags.cnxPb
            && (if c.flags.reopenCnt == 3 then r.state == Open && (!c.active ==> r.active == !c.cb2)
                else r.state == Reopen && r.flags.reopenCnt == c.flags.reopenCnt + 1)
  {
    DwHandledControl(c, e.m.request);
    DwHandledControl(Do(c, Take(e.m.hbh)), e.m.request);
  }

  // ---- Steps and runs ----

  /** What a step makes of the watchdog counter: in REOPEN, and anywhere else. */
  ghost predicate ReopenMove(c: Control, watchdog: bool, r: Control) {
    && (r.state == Open <==> watchdog && c.flags.reopenCnt == 3)
    && (r.state == Reopen ==> r.flags.reopenCnt == c.flags.reopenCnt + (if watchdog then 1 else 0))
    && r.state != OpenNew
    && (InService(r.state) ==> r.flags.cnxPb == c.flags.cnxPb)
  }

  ghost predicate OtherMove(c: Control, r: Control) {
    && (InService(r.state) ==> !r.flags.cnxPb)
    && (r.state == Reopen ==> c.flags.cnxPb && r.flags.reopenCnt == 1)
    && (c.flags.cnxPb ==> r.state != Open && r.state != OpenNew)
  }

  /** The flag of a connection problem is only up while there is no usable connection. */
  ghost predicate ProblemInv(c: Control) {
    InService(c.state) ==> !c.flags.cnxPb
  }

  ghost predicate Move(c: Control, watchdog: bool, r: Control) {
    && (if c.state == Reopen then ReopenMove(c, watchdog, r) else OtherMove(c, r))
    && (r.state == Open ==> r.active == if c.state == Open then c.active else !c.cb2)
  }

  lemma TurnMove(c: Control, e: Event, l: Lookup)
    requires Served(c) && ProblemInv(c)
    ensures Move(c, WatchdogEvent(e, l), Turn(c, e, l))
  {
    if c.state == Reopen {
      if WatchdogEvent(e, l) {
        ReopenWatchdog(c, e, l);
      } else {
        ReopenTurn(c, e, l);
      }
    } else if InService(c.state) {
      TurnStays(c, e, l);
    } else {
      TurnOutcome(c, e, l);
    }
  }

  lemma OtherThreadsMove(p: Peer, s: Step)
    requires Enabled(p, s) && !s.Psm? && Served(p.c) && ProblemInv(p.c)
    ensures Move(p.c, false, Decided(p, s))
  {
    if s.RouteRequest? {
      OutSendControl(p.c, s.m);
    } else if s.RouteAnswer? {
      OutSendControl(p.c.(reqin := p.c.reqin - 1), s.m);
    }
  }

  lemma StepMove(p: Peer, s: Step)
    requires Enabled(p, s) && Served(p.c) && ProblemInv(p.c)
    ensures Move(p.c, WatchdogHandled(p, s), After(p, s).c)
  {
    if s.Psm? {
      TurnMove(p.c, s.e, LookedUp(p.ms, s.e));
    } else {
      OtherThreadsMove(p, s);
    }
  }

  ghost predicate Moves(ps: seq<Peer>, steps: seq<Step>) {
    && |ps| == |steps| + 1 && ProblemInv(ps[0].c)
    && forall i :: 0 <= i < |steps| && ProblemInv(ps[i].c) ==>
         Move(ps[i].c, WatchdogHandled(ps[i], steps[i]), ps[i + 1].c)
  }

  lemma RunMoves(ps: seq<Peer>, steps: seq<Step>)
    requires PeerRun(ps, steps)
    ensures Moves(ps, steps)
  {
    forall i | 0 <= i < |steps| && ProblemInv(ps[i].c)
      ensures Move(ps[i].c, WatchdogHandled(ps[i], steps[i]), ps[i + 1].c)
    {
      RunKeeps(ps, steps, i);
      StepMove(ps[i], steps[i]);
    }
  }

  lemma {:induction false} ProblemInvHolds(ps: seq<Peer>, steps: seq<Step>, k: nat)
    requires Moves(ps, steps) && k <= |steps|
    ensures ProblemInv(ps[k].c)
  {
    if k > 0 {
      ProblemInvHolds(ps, steps, k - 1);
      assert Move(ps[k - 1].c, WatchdogHandled(ps[k - 1], steps[k - 1]), ps[k].c);
    }
  }

  lemma MoveAt(ps: seq<Peer>, steps: seq<Step>, i: nat)
    requires Moves(ps, steps) && i < |steps|
    ensures Move(ps[i].c, WatchdogHandled(ps[i], steps[i]), ps[i + 1].c)
  {
    ProblemInvHolds(ps, steps, i);
  }

  /** How many watchdog messages were handled from step `first` until before step `end`. */
  ghost function WatchdogsHandled(ps: seq<Peer>, steps: seq<Step>, first: nat, end: nat): nat
    requires first <= end <= |steps| < |ps|
    decreases end
  {
    if first == end then 0
    else WatchdogsHandled(ps, steps, first, end - 1) + if WatchdogHandled(ps[end - 1], steps[end - 1]) then 1 else 0
  }

  /** As long as the peer stays in REOPEN, the counter is one more than the watchdogs handled there. */
  lemma {:induction false} CounterCounts(ps: seq<Peer>, steps: seq<Step>, e: nat, k: nat)
    requires Moves(ps, steps) && 0 < e <= k <= |steps| && ps[e - 1].c.state != Reopen
    requires forall i :: e <= i <= k ==> ps[i].c.state == Reopen
    ensures ps[k].c.flags.reopenCnt == 1 + WatchdogsHandled(ps, steps, e, k)
  {
    MoveAt(ps, steps, k - 1);
    if k > e {
      CounterCounts(ps, steps, e, k - 1);
    }
  }

  lemma OpensOnThird(ps: seq<Peer>, steps: seq<Step>, e: nat, k: nat)
    requires Moves(ps, steps) && 0 < e <= k < |steps| && ps[e - 1].c.state != Reopen
    requires forall i :: e <= i <= k ==> ps[i].c.state == Reopen
    ensures ps[e - 1].c.flags.cnxPb
    ensures ps[k + 1].c.state == Open <==>
            WatchdogHandled(ps[k], steps[k]) && WatchdogsHandled(ps, steps, e, k + 1) == 3
  {
    MoveAt(ps, steps, e - 1);
    MoveAt(ps, steps, k);
    CounterCounts(ps, steps, e, k);
  }

  /**
   In every run: a peer that entered REOPEN did so with a connection problem pending, and from there a step
   leads to OPEN exactly when it is the third watchdog message handled since.
   */
  lemma ThirdWatchdogOpens(ps: seq<Peer>, steps: seq<Step>, e: nat, k: nat)
    requires PeerRun(ps, steps) && 0 < e <= k < |steps| && ps[e - 1].c.state != Reopen
    requires forall i :: e <= i <= k ==> ps[i].c.state == Reopen
    ensures ps[e - 1].c.flags.cnxPb
    ensures ps[k + 1].c.state == Open <==>
            WatchdogHandled(ps[k], steps[k]) && WatchdogsHandled(ps, steps, e, k + 1) == 3
  {
    RunMoves(ps, steps);
    OpensOnThird(ps, steps, e, k);
  }

  /** With a problem pending no step leads to OPEN or OPEN_NEW: a connection then completes into REOPEN. */
  lemma ProblemMeansReopen(ps: seq<Peer>, steps: seq<Step>, k: nat)
    requires PeerRun(ps, steps) && k < |steps| && ps[k].c.flags.cnxPb
    ensures ps[k + 1].c.state != Open && ps[k + 1].c.state != OpenNew
  {
    RunMoves(ps, steps);
    ProblemInvHolds(ps, steps, k);
    MoveAt(ps, steps, k);
  }

  // ---- In OPEN, but not in service ----

  lemma {:induction false} ActiveSinceEntry(ps: seq<Peer>, steps: seq<Step>, e: nat, k: nat)
    requires Moves(ps, steps) && 0 < e <= k <= |steps| && ps[e - 1].c.state != Open
    requires forall i :: e <= i <= k ==> ps[i].c.state == Open
    ensures ps[k].c.active <==> !ps[e - 1].c.cb2
  {
    MoveAt(ps, steps, k - 1);
    if k > e {
      ActiveSinceEntry(ps, steps, e, k - 1);
    }
  }

  /**
   In every run: a peer in OPEN is in the active list and has an out thread if and only if no second validation
   callback was set at the step that took it to OPEN.
   */
  lemma OpenIsServedExactlyWhen(ps: seq<Peer>, steps: seq<Step>, e: nat, k: nat)
    requires PeerRun(ps, steps) && 0 < e <= k <= |steps| && ps[e - 1].c.state != Open
    requires forall i :: e <= i <= k ==> ps[i].c.state == Open
    ensures ps[k].c.active <==> !ps[e - 1].c.cb2
    ensures ps[k].c.out != Stopped <==> !ps[e - 1].c.cb2
  {
    RunMoves(ps, steps);
    ActiveSinceEntry(ps, steps, e, k);
    RunKeeps(ps, steps, k);
  }

  /** Such a callback does leave a peer in OPEN without either: a CER is accepted while it is set. */
  lemma OpenWithoutService(flags: Flags, first: Id) returns (ps: seq<Peer>)
    requires !flags.cnxPb
    ensures PeerRun(ps, [Start, ValidatorAnswers(true), Psm(CnxIncoming(false, NoHandshake(false)))])
    ensures ps[3].c.state == Open && !ps[3].c.active && ps[3].c.out == Stopped
  {
    var p0 := Initial(flags, first);
    var p1 := After(p0, Start);
    var p2 := After(p1, ValidatorAnswers(true));
    var p3 := After(p2, Psm(CnxIncoming(false, NoHandshake(false))));
    ps := [p0, p1, p2, p3];
  }

  // ---- Losing the peer ----

  /**
   Two timeouts in OPEN with no answer between: the first sends a DWR, the second takes the peer out of service
   and fails all its messages over.
   */
  lemma TwoTimeoutsSuspect(c: Control, v: Verdict, w: Verdict, l: Lookup)
    requires c.state == Open && c.cnx && !c.flags.dwPending
    ensures var q := Turn(c, PsmTimeout(v), l);
            && q.state == Open && q.flags.dwPending && q.todo == Then(c.todo, Queue(LinkLocal(true)))
            && var r := Turn(q, PsmTimeout(w), l);
               r.state == Suspect && !r.active && r.out == Stopped && r.todo == Then(q.todo, FailAll)
  {
  }

  /** A third one gives the connection up, so that the next one has to go through REOPEN. */
  lemma SuspectGivesUp(c: Control, v: Verdict, l: Lookup)
    requires c.state == Suspect && !c.flags.delete
    ensures var r := Turn(c, PsmTimeout(v), l); r.state == Closed && !r.cnx && r.flags.cnxPb
  {
  }

  lemma SuspectTurn(c: Control, e: Event, l: Lookup)
    requires c.state == Suspect
    ensures Turn(c, e, l).state in {Suspect, Closed, ClosingGrace, Zombie}
  {
    CleanedUpControl(c);
    match e
    case MsgRecv(m) => SuspectMessage(c, m, l);
    case CnxError(v) => CleanedUpControl(WithProblem(c));
    case PsmTimeout(v) => CleanedUpControl(WithProblem(c));
    case _ =>
  }

  lemma SuspectMessage(c: Control, m: Received, l: Lookup)
    requires c.state == Suspect
    ensures MessageReceived(c, m, l).state in {Suspect, Closed, ClosingGrace, Zombie}
  {
    if m.Parsed? && !m.routable {
      SuspectLinkLocal(if m.request then c else Do(c, Take(m.hbh)), m.request, m.parsing, l.pending);
    }
  }

  lemma SuspectLinkLocal(c: Control, request: bool, parsing: Parsing, pending: bool)
    requires c.state == Suspect
    ensures LinkLocalHandled(c, request, parsing, pending).state in {Suspect, Closed, ClosingGrace, Zombie}
  {
    match parsing
    case ParseFailure => CleanedUpControl(c);
    case ErrorAnswered => OutSendControl(c, LinkLocal(false));
    case InvalidAnswer =>
    case Understood(cmd) =>
      match cmd
      case CapabilitiesExchange(_) => OutSendControl(c, LinkLocal(false));
      case DisconnectPeer => SuspectDisconnect(c, request, pending);
      case DeviceWatchdog(_) =>
        CleanedUpControl(c);
        DwHandledControl(c, request);
      case Unknown => OutSendControl(c, LinkLocal(false));
  }

  lemma SuspectDisconnect(c: Control, request: bool, pending: bool)
    requires c.state == Suspect
    ensures CommandHandled(c, request, DisconnectPeer, pending).state in {Suspect, Closed, ClosingGrace, Zombie}
  {
    var to := if pending || c.reqin != 0 then ClosingGrace else Closing;
    var c' := Changed(c, to);
    ChangedControl(c, to);
    OutSendControl(c', LinkLocal(false));
    CleanedUpControl(if c.cnx then OutSend(c', LinkLocal(false)) else c');
    CleanedUpControl(DpHandled(c, request, pending));
  }

  /** In every run: no step leads from SUSPECT back into service, whatever is received. */
  lemma SuspectNeverReturns(ps: seq<Peer>, steps: seq<Step>, k: nat)
    requires PeerRun(ps, steps) && k < |steps| && ps[k].c.state == Suspect
    ensures ps[k + 1].c.state in {Suspect, Closed, ClosingGrace, Zombie}
  {
    if steps[k].Psm? {
      SuspectTurn(ps[k].c, steps[k].e, LookedUp(ps[k].ms, steps[k].e));
    } else if steps[k].RouteAnswer? {
      OutSendControl(ps[k].c.(reqin := ps[k].c.reqin - 1), steps[k].m);
    }
  }
}
