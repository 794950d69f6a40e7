/**
 The table of the state machine (p_psm.c:395-922), event by event and state by state: what a turn makes of every
 field of the peer and which operations on its messages it asks for, in order. Nothing here goes through the
 handlers; the theorem at the end puts the table under every turn of every run.
 */
module PeerTable {

  import opened SentRequests
  import opened PeerMachine
  import opened PeerInvariants
  import opened PeerConservation

  // ---- How a peer can end up ----

  /**
   Without connections and out of service: what the peer held is failed over first, if it was in OPEN or in
   CLOSING_GRACE; last, the sent requests of the base protocol are dropped.
   */
  ghost function Down(c: Control, to: State, flags: Flags): Control {
    c.(state := to, flags := flags, active := false, out := Stopped, cnx := false, receiver := false,
       reqin := if c.state == Closed then c.reqin else 0,
       todo := Then(if c.state == Open || c.state == ClosingGrace then Then(c.todo, FailAll) else c.todo, Unlink))
  }

  /** The thread of the state machine ends. */
  ghost function Dead(c: Control): Control {
    Down(c, Zombie, c.flags.(cnxPb := false, dwPending := false))
  }

  /** CLOSED, where the next attempt can start; `problem` tells if a connection problem is noted. */
  ghost function Shut(c: Control, problem: bool): Control {
    Down(c, Closed, c.flags.(cnxPb := c.flags.cnxPb || problem))
  }

  /** OPEN: with a second validation callback set, that is all; otherwise the peer is linked and sends. */
  ghost function Opened(c: Control): Control {
    if c.cb2 then c.(state := Open, cb2 := false) else c.(state := Open, active := true, out := Sending)
  }

  /** REOPEN, with the first watchdog sent. */
  ghost function Reopened(c: Control): Control {
    c.(state := Reopen, flags := c.flags.(reopenCnt := 1, cnxPb := false, dwPending := true),
       todo := Then(c.todo, Direct(LinkLocal(true))))
  }

  ghost function InUse(c: Control): Control {
    if c.flags.cnxPb then Reopened(c) else Opened(c)
  }

  /** The incoming connection becomes the one in use, as far as the CER, the handshake and the callback allow it. */
  ghost function Incoming(c: Control, v: Verdict): Control {
    var answered := c.(receiver := false, cnx := true, todo := Then(c.todo, Direct(LinkLocal(false))));
    match v
    case Refused => c.(receiver := false)
    case NoHandshake(unordered) =>
      if c.flags.cnxPb || !unordered then InUse(answered)
      else if c.flags.dwPending then answered.(state := Suspect)
      else answered.(state := OpenNew, flags := c.flags.(dwPending := true),
                     todo := Then(answered.todo, Direct(LinkLocal(true))))
    case HandshakeFailed => answered.(state := OpenHandshake, cnx := false)
    case HandshakeDone(rejected) => if c.cb2 && rejected then answered.(state := OpenHandshake) else InUse(answered)
  }

  /** The incoming connection cannot become the one in use: there is none, or there is one in use. */
  ghost function IncomingOrDead(c: Control, v: Verdict): Control {
    if c.receiver && !c.cnx then Incoming(c, v) else Dead(c)
  }

  ghost function Sent(c: Control, request: bool): Control {
    c.(todo := Then(c.todo, if c.state == Open then Queue(LinkLocal(request)) else Direct(LinkLocal(request))))
  }

  // ---- The table ----

  ghost function OnTermination(c: Control): Control {
    if c.state in {Open, OpenNew, Reopen} then
      c.(state := ClosingGrace, active := false, out := Stopped, todo := Then(c.todo, Direct(LinkLocal(true))))
    else Dead(c)
  }

  ghost function OnError(c: Control, v: Verdict): Control {
    if c.state == WaitCnxAckElec then IncomingOrDead(c, v)
    else if c.state == Closing then Dead(c)
    else if c.state == ClosingGrace then (if c.flags.localTerm then Dead(c) else Shut(c, false))
    else if c.flags.delete then Dead(c)
    else Shut(c, c.state != Closed)
  }

  ghost function OnTimer(c: Control, v: Verdict): Control {
    if c.state == WaitCnxAckElec then IncomingOrDead(c, v)
    else if c.state == Closed then c.(state := WaitCnxAck)
    else if c.state == ClosingGrace then (if c.flags.localTerm then Dead(c) else Shut(c, false))
    else if c.state in {Open, OpenNew, Reopen} then OnSilence(c)
    else if c.flags.delete then Dead(c)
    else Shut(c, c.state == Suspect)
  }

  /** In service: a watchdog is sent, or if one is pending the peer is suspect and fails everything over. */
  ghost function OnSilence(c: Control): Control {
    if !c.flags.dwPending then Sent(c.(flags := c.flags.(dwPending := true)), true)
    else c.(state := Suspect, active := false, out := Stopped,
            todo := if c.state == Open then Then(c.todo, FailAll) else c.todo)
  }

  ghost function OnIncoming(c: Control, won: bool, v: Verdict): Control {
    match c.state
    case Closed => IncomingOrDead(c.(receiver := true), v)
    case WaitCnxAck => c.(state := WaitCnxAckElec, receiver := true)
    case WaitCea => if won then IncomingOrDead(c.(cnx := false, receiver := true), v) else c
    case _ => c
  }

  ghost function OnEstablished(c: Control, won: bool, v: Verdict): Control {
    var asked := c.(todo := Then(c.todo, Direct(LinkLocal(true))));
    if c.state == WaitCnxAckElec && won then (if c.receiver && !c.cnx then Incoming(asked, v) else asked)
    else if c.state == WaitCnxAck || c.state == WaitCnxAckElec then
      var left := if c.state == WaitCnxAck then asked else asked.(receiver := false);
      if c.cnx then left else left.(state := WaitCea, cnx := true)
    else c
  }

  ghost function OnAttemptFailed(c: Control, v: Verdict): Control {
    match c.state
    case WaitCnxAckElec => IncomingOrDead(c, v)
    case WaitCnxAck => if c.flags.delete then Dead(c) else Shut(c, false)
    case _ => c
  }

  ghost function OnShutdown(c: Control): Control {
    if c.flags.delete then Dead(c) else Shut(c, false)
  }

  // ---- Messages ----

  ghost function Replied(c: Control): Control {
    if c.cnx then Sent(c, false) else c
  }

  /** A CEA in WAITCEA. */
  ghost function OnCea(c: Control, cea: Cea): Control {
    match cea
    case Unsaved => c.(cnx := false)
    case TooBusy => Shut(c, false)
    case ElectionLost => c
    case OtherCode => OnShutdown(c)
    case Success(security) =>
      if security.Disabled? then c.(cnx := false)
      else if security.Handshake? then
        if security.ok && c.cnx then InUse(c) else c.(state := OpenHandshake, cnx := false)
      else if c.cnx then InUse(c)
      else OnShutdown(c)
  }

  /** A DPR: CLOSING_GRACE while there are requests to be answered on either side, CLOSED otherwise; after a DPA. */
  ghost function OnDpr(c: Control, pending: bool): Control {
    if pending || c.reqin != 0 then
      var grace := c.(state := ClosingGrace, active := false, out := Stopped);
      if c.cnx then grace.(todo := Then(c.todo, Direct(LinkLocal(false)))) else OnShutdown(grace)
    else if !c.cnx then OnShutdown(c)
    else
      var down := Shut(c, false);
      down.(todo := Then(Then(down.todo.before, Direct(LinkLocal(false))), Unlink))
  }

  ghost function OnDpa(c: Control, pending: bool): Control {
    if pending || c.reqin != 0 then
      var marked := c.(flags := c.flags.(localTerm := true));
      if c.state == Closing then Dead(marked) else marked
    else Dead(c)
  }

  /** A DWR, which is answered, or a DWA; in REOPEN it counts. */
  ghost function OnWatchdog(c: Control, request: bool): Control {
    var noted := if request then Sent(c, false) else c.(flags := c.flags.(dwPending := false));
    if c.state != Reopen then noted
    else if c.flags.reopenCnt == 3 then Opened(noted.(flags := noted.flags.(reopenCnt := 0)))
    else Sent(noted.(flags := noted.flags.(dwPending := true, reopenCnt := c.flags.reopenCnt + 1)), true)
  }

  ghost function OnCommand(c: Control, request: bool, cmd: Command, pending: bool): Control {
    match cmd
    case CapabilitiesExchange(cea) => if request then Replied(c) else if c.state == WaitCea then OnCea(c, cea) else c
    case DisconnectPeer => if request then OnDpr(c, pending) else OnDpa(c, pending)
    case DeviceWatchdog(ok) => if ok && (c.cnx || !request) then OnWatchdog(c, request) else OnShutdown(c)
    case Unknown => if request then Replied(c) else c
  }

  ghost function OnMessage(c: Control, m: Received, l: Lookup): Control {
    if m.Unparsable? || c.state == Closed then c
    else
      var fetched := if m.request then c else c.(todo := Then(c.todo, Take(m.hbh)));
      if !m.request && !l.known then fetched
      else
        var c' := if c.state == OpenNew then Opened(fetched) else fetched;
        if m.routable then
          var taken := c.state in {Open, OpenNew, Reopen, Suspect, Closing, ClosingGrace};
          if m.request && taken then c'.(reqin := c.reqin + 1) else c'
        else match m.parsing
          case ParseFailure => Dead(c')
          case ErrorAnswered => Replied(c')
          case InvalidAnswer => c'
          case Understood(cmd) => OnCommand(c', m.request, cmd, l.pending)
  }

  ghost function Expected(c: Control, e: Event, l: Lookup): Control {
    match e
    case Terminate => OnTermination(c)
    case MsgRecv(m) => OnMessage(c, m, l)
    case CnxError(v) => OnError(c, v)
    case CnxEpChange => c
    case CnxShutdown => OnShutdown(c)
    case CnxIncoming(won, v) => OnIncoming(c, won, v)
    case CnxEstablished(won, v) => OnEstablished(c, won, v)
    case CnxFailed(v) => OnAttemptFailed(c, v)
    case PsmTimeout(v) => OnTimer(c, v)
  }

  // ---- The handlers follow it ----

  lemma DownIs(c: Control)
    requires Served(c) && c.state != Zombie
    ensures CleanedUp(c) == Shut(c, false) && Ended(c) == Dead(c) && PeerMachine.Reset(c) == OnShutdown(c)
  {
  }

  lemma ReadyIs(c: Control)
    requires Served(c) && c.state in {Closed, WaitCnxAckElec, WaitCea, OpenHandshake}
    ensures Ready(c) == InUse(c)
  {
  }

  lemma IncomingIs(c: Control, v: Verdict)
    requires Served(c) && c.state in {Closed, WaitCnxAckElec, WaitCea} && c.receiver && !c.cnx
    ensures ReceiverProcessed(c, v) == Incoming(c, v)
  {
    var c1 := PeerMachine.OutSend(c.(cnx := true, receiver := false), LinkLocal(false));
    ReadyIs(c1);
    ReadyIs(c1.(state := OpenHandshake));
  }

  lemma IncomingOrDeadIs(c: Control, v: Verdict)
    requires Served(c) && c.state in {Closed, WaitCnxAckElec, WaitCea}
    ensures ReceiverOrEnd(c, v) == IncomingOrDead(c, v)
  {
    if c.receiver && !c.cnx {
      IncomingIs(c, v);
    } else {
      DownIs(c);
    }
  }

  lemma CeaIs(c: Control, cea: Cea)
    requires Served(c) && c.state == WaitCea
    ensures CeReceived(c, false, cea) == OnCea(c, cea)
  {
    DownIs(c);
    ReadyIs(c);
    ReadyIs(c.(state := OpenHandshake));
  }

  lemma GraceIs(c: Control)
    requires Served(c)
    ensures Changed(c, ClosingGrace) == c.(state := ClosingGrace, active := false, out := Stopped)
  {
  }

  lemma ClosingIs(c: Control)
    requires Served(c)
    ensures Changed(c, Closing) ==
            c.(state := Closing, active := false, out := Stopped,
               todo := if c.state == Open || c.state == ClosingGrace then Then(c.todo, FailAll) else c.todo)
  {
  }

  lemma BusyDprIs(c: Control, pending: bool)
    requires Served(c) && c.state != Zombie && (pending || c.reqin != 0)
    ensures CommandHandled(c, true, DisconnectPeer, pending) == OnDpr(c, pending)
  {
    GraceIs(c);
    DownIs(c.(state := ClosingGrace, active := false, out := Stopped));
  }

  lemma CalmDprIs(c: Control)
    requires Served(c) && c.state != Zombie && c.state != Closed && c.reqin == 0
    ensures CommandHandled(c, true, DisconnectPeer, false) == OnDpr(c, false)
  {
    ClosingIs(c);
    var c' := Changed(c, Closing);
    DownIs(c');
    DownIs(Do(c', Direct(LinkLocal(false))));
  }

  lemma DpaIs(c: Control, pending: bool)
    requires Served(c) && c.state != Zombie && c.state != Closed
    ensures CommandHandled(c, false, DisconnectPeer, pending) == OnDpa(c, pending)
  {
    if pending || c.reqin != 0 {
      DownIs(c.(flags := c.flags.(localTerm := true)));
    } else {
      ClosingIs(c);
      DownIs(Changed(c, Closing));
    }
  }

  lemma WatchdogIs(c: Control, request: bool)
    requires Served(c)
    ensures DwHandled(c, request) == OnWatchdog(c, request)
  {
  }

  lemma CommandIs(c: Control, request: bool, cmd: Command, pending: bool)
    requires Served(c) && c.state != Zombie && c.state != Closed
    ensures CommandHandled(c, request, cmd, pending) == OnCommand(c, request, cmd, pending)
  {
    match cmd
    case CapabilitiesExchange(cea) =>
      if !request && c.state == WaitCea {
        CeaIs(c, cea);
      }
    case DisconnectPeer =>
      if !request {
        DpaIs(c, pending);
      } else if pending || c.reqin != 0 {
        BusyDprIs(c, pending);
      } else {
        CalmDprIs(c);
      }
    case DeviceWatchdog(_) =>
      WatchdogIs(c, request);
      DownIs(c);
    case Unknown =>
  }

  lemma LinkLocalIs(c: Control, m: Received, pending: bool)
    requires Served(c) && c.state != Zombie && c.state != Closed && m.Parsed?
    ensures LinkLocalHandled(c, m.request, m.parsing, pending) == match m.parsing
              case ParseFailure => Dead(c)
              case ErrorAnswered => Replied(c)
              case InvalidAnswer => c
              case Understood(cmd) => OnCommand(c, m.request, cmd, pending)
  {
    if m.parsing.Understood? {
      CommandIs(c, m.request, m.parsing.c, pending);
    } else {
      DownIs(c);
    }
  }

  lemma OpenNewIs(c: Control)
    requires Served(c) && c.state == OpenNew
    ensures Changed(c, Open) == Opened(c) && Served(Opened(c))
  {
  }

  lemma MessageIs(c: Control, m: Received, l: Lookup)
    requires Served(c) && c.state != Zombie
    ensures MessageReceived(c, m, l) == OnMessage(c, m, l)
  {
    if m.Parsed? && c.state != Closed && (m.request || l.known) {
      var fetched := if m.request then c else Do(c, Take(m.hbh));
      if c.state == OpenNew {
        OpenNewIs(fetched);
        LinkLocalIs(Opened(fetched), m, l.pending);
      } else {
        LinkLocalIs(fetched, m, l.pending);
      }
    }
  }

  lemma TerminationIs(c: Control, l: Lookup)
    requires Served(c) && c.state != Zombie
    ensures Turn(c, Terminate, l) == OnTermination(c)
  {
    if c.state in {Open, OpenNew, Reopen} {
      GraceIs(c);
    } else {
      DownIs(c);
    }
  }

  lemma ProblemIs(c: Control)
    requires Served(c) && c.state != Zombie
    ensures PeerMachine.Reset(WithProblem(c)) == if c.flags.delete then Dead(c) else Shut(c, true)
  {
    DownIs(WithProblem(c));
  }

  lemma SilenceIs(c: Control)
    requires Served(c) && c.state in {Open, OpenNew, Reopen}
    ensures DwTimedOut(c) == OnSilence(c)
  {
  }

  lemma ErrorIs(c: Control, v: Verdict)
    requires Served(c) && c.state != Zombie
    ensures OnCnxError(c, v) == OnError(c, v)
  {
    if c.state == WaitCnxAckElec {
      IncomingOrDeadIs(c, v);
    } else if c.state in {Closed, Closing, ClosingGrace} {
      DownIs(c);
    } else {
      ProblemIs(c);
    }
  }

  lemma TimerIs(c: Control, v: Verdict)
    requires Served(c) && c.state != Zombie
    ensures OnTimeout(c, v) == OnTimer(c, v)
  {
    if c.state == WaitCnxAckElec {
      IncomingOrDeadIs(c, v);
    } else if c.state == Suspect {
      ProblemIs(c);
    } else if c.state in {Open, OpenNew, Reopen} {
      SilenceIs(c);
    } else if c.state != Closed {
      DownIs(c);
    }
  }

  lemma IncomingTurnIs(c: Control, won: bool, v: Verdict, l: Lookup)
    requires Served(c) && c.state != Zombie
    ensures Turn(c, CnxIncoming(won, v), l) == OnIncoming(c, won, v)
  {
    if c.state == Closed {
      IncomingOrDeadIs(c.(receiver := true), v);
    } else if c.state == WaitCea {
      IncomingOrDeadIs(c.(cnx := false, receiver := true), v);
    }
  }

  lemma EstablishedIs(c: Control, won: bool, v: Verdict, l: Lookup)
    requires Served(c) && c.state != Zombie
    ensures Turn(c, CnxEstablished(won, v), l) == OnEstablished(c, won, v)
  {
    if c.state == WaitCnxAckElec && won && c.receiver && !c.cnx {
      IncomingIs(Do(c, Direct(LinkLocal(true))), v);
    }
  }

  lemma AttemptFailedIs(c: Control, v: Verdict, l: Lookup)
    requires Served(c) && c.state != Zombie
    ensures Turn(c, CnxFailed(v), l) == OnAttemptFailed(c, v)
  {
    if c.state == WaitCnxAckElec {
      IncomingOrDeadIs(c, v);
    } else if c.state == WaitCnxAck {
      DownIs(c);
    }
  }

  /** Every turn, on every event in every state, does exactly what the table says. */
  lemma TurnFollowsTable(c: Control, e: Event, l: Lookup)
    requires Served(c) && c.state != Zombie
    ensures Turn(c, e, l) == Expected(c, e, l)
  {
    match e
    case Terminate => TerminationIs(c, l);
    case MsgRecv(m) => MessageIs(c, m, l);
    case CnxError(v) => ErrorIs(c, v);
    case CnxEpChange =>
    case CnxShutdown => DownIs(c);
    case CnxIncoming(won, v) => IncomingTurnIs(c, won, v, l);
    case CnxEstablished(won, v) => EstablishedIs(c, won, v, l);
    case CnxFailed(v) => AttemptFailedIs(c, v, l);
    case PsmTimeout(v) => TimerIs(c, v);
  }

  // ---- What it says, cell by cell ----

  /** A message of the base protocol made here is a request or an answer as asked for, and never routed. */
  lemma BaseMessages(request: bool)
    ensures var m := LinkLocal(request); m.request == request && !m.routable && !m.retransmit && m.timeout.None?
  {
  }

  /**
   The order to terminate: in a state of service the peer leaves it, keeps its connection and every message, and
   sends a request of the base protocol, the DPR; in any other state it ends at once.
   */
  lemma TerminateOutcome(c: Control, l: Lookup)
    requires Served(c) && c.state != Zombie
    ensures var r := Turn(c, Terminate, l);
            if c.state == Open || c.state == OpenNew || c.state == Reopen then
              && r.state == ClosingGrace && r.cnx && !r.active && r.out == Stopped && r.flags == c.flags
              && r.todo.Then? && r.todo.before == c.todo && r.todo.w.Direct?
              && r.todo.w.m.request && !r.todo.w.m.routable
            else r.state == Zombie && !r.cnx && !r.receiver && !r.active && r.out == Stopped
  {
    TurnFollowsTable(c, Terminate, l);
  }

  /** Closed without connections, or ended if the peer is to be deleted; no connection problem is noted. */
  ghost predicate GivenUp(c: Control, r: Control) {
    && !r.cnx && !r.receiver && !r.active && r.out == Stopped
    && if c.flags.delete then r.state == Zombie else r.state == Closed && r.flags == c.flags
  }

  /** A shutdown in any state; an attempt that fails or takes too long; a CEA, or the end of a closing, that is late. */
  lemma GivingUpOutcome(c: Control, v: Verdict, l: Lookup)
    requires Served(c) && c.state != Zombie
    ensures GivenUp(c, Turn(c, CnxShutdown, l))
    ensures c.state == WaitCnxAck ==> GivenUp(c, Turn(c, CnxFailed(v), l))
    ensures c.state == WaitCnxAck || c.state == WaitCea || c.state == Closing ==> GivenUp(c, Turn(c, PsmTimeout(v), l))
    ensures c.state != WaitCnxAck && c.state != WaitCnxAckElec ==> Turn(c, CnxFailed(v), l) == c
  {
    TurnFollowsTable(c, CnxShutdown, l);
    TurnFollowsTable(c, CnxFailed(v), l);
    TurnFollowsTable(c, PsmTimeout(v), l);
  }

  /**
   The grace period ends, by its timeout or by the loss of the connection: everything still there is failed over, and
   the peer ends if and only if the termination is a local one.
   */
  lemma GraceEnds(c: Control, e: Event, l: Lookup)
    requires Served(c) && c.state == ClosingGrace && (e.PsmTimeout? || e.CnxError?)
    ensures var r := Turn(c, e, l);
            && !r.cnx && !r.receiver && r.todo == Then(Then(c.todo, FailAll), Unlink)
            && r.state == if c.flags.localTerm then Zombie else Closed
  {
    TurnFollowsTable(c, e, l);
  }

  // ---- The other threads ----

  /** What a step of another thread makes of the peer, and what it does to the messages. */
  ghost function Elsewhere(p: Peer, s: Step): Control
    requires !s.Psm? && (s.OutSends? ==> p.ms.tosend != [])
  {
    match s
    case Start => p.c.(state := Closed)
    case Restart => p.c.(state := New, flags := p.c.flags.(localTerm := false))
    case RouteRequest(m) => p.c.(todo := Then(p.c.todo, Queue(m)))
    case RouteAnswer(m) =>
      if !p.c.cnx then p.c
      else p.c.(reqin := p.c.reqin - 1, todo := Then(p.c.todo, if p.c.state == Open then Queue(m) else Direct(m)))
    case OutSends(ok) =>
      var m := p.ms.tosend[0];
      var taken := m.request && exists sr :: sr in p.ms.link.cache.srs && sr.req.hbh == p.ms.link.nextHbh;
      p.c.(out := if ok && !taken then Sending else Purging, todo := Then(p.c.todo, SendFirst))
    case OutPurges => p.c.(todo := Then(p.c.todo, SetAside))
    case Expires(now) => p.c.(todo := Then(p.c.todo, Expire(now)))
    case ValidatorAnswers(cb2) => p.c.(cb2 := cb2)
  }

  lemma OthersFollowTable(p: Peer, s: Step)
    requires Enabled(p, s) && !s.Psm? && SortedById(p.ms.link.cache.srs)
    ensures Decided(p, s) == Elsewhere(p, s)
  {
    if s.OutSends? {
      ByIdMeaning(p.ms.link.cache.srs, -1);
    }
  }

  /**
   A send that fails, or that finds the id of a request still in use, ends the sending: from then on the out thread
   only empties the queue.
   */
  lemma FailedSendEndsSending(p: Peer, ok: bool)
    requires Enabled(p, OutSends(ok)) && SortedById(p.ms.link.cache.srs)
    ensures After(p, OutSends(ok)).c.out == Sending <==>
            ok && !(p.ms.tosend[0].request
                    && exists sr :: sr in p.ms.link.cache.srs && sr.req.hbh == p.ms.link.nextHbh)
    ensures After(p, OutSends(ok)).c.out != Sending ==> After(p, OutSends(ok)).c.out == Purging
  {
    OthersFollowTable(p, OutSends(ok));
  }

  /** In every run, every step of every thread follows the table. */
  lemma EveryStepFollowsTable(ps: seq<Peer>, steps: seq<Step>, k: nat)
    requires PeerRun(ps, steps) && k < |steps|
    ensures var p, s := ps[k], steps[k];
            && (s.OutSends? ==> p.ms.tosend != [])
            && var r := if s.Psm? then Expected(p.c, s.e, LookedUp(p.ms, s.e)) else Elsewhere(p, s);
               ps[k + 1] == Peer(r.(todo := Nothing), WorkedAll(p.ms, r.todo))
  {
    RunKeeps(ps, steps, k);
    RunIsValid(ps, steps, k);
    if steps[k].Psm? {
      TurnFollowsTable(ps[k].c, steps[k].e, LookedUp(ps[k].ms, steps[k].e));
    } else {
      OthersFollowTable(ps[k], steps[k]);
    }
  }

  lemma RunIsValid(ps: seq<Peer>, steps: seq<Step>, k: nat)
    requires PeerRun(ps, steps) && k <= |steps|
    ensures SortedById(ps[k].ms.link.cache.srs)
  {
    NothingLostNothingDoubled(ps[..k + 1], steps[..k], 0);
  }
}
