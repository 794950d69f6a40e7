/**
 One Diameter peer: its queues, its failover (peers.c, p_sr.c), its out thread (p_out.c) and its state
 machine (p_psm.c) with the capabilities exchange (p_ce.c), watchdog (p_dw.c) and disconnection (p_dp.c)
 handlers. What the machine cannot know in advance (the content of messages, the outcome of handshakes and
 validations) is part of the event. The handlers decide: they change the state, flags and connections of the
 peer, and list what is to be done to its messages, in order.
 */
module PeerMachine {

  import opened Clock
  import opened Lists
  import opened SentRequests
  import opened SentRequestRuns

  // ---- Messages ----

  /**
   The messages of a peer: its send queue, those its out thread set aside, and the link with its cache of sent
   requests; `outgoing` is what it put back on the global routing queue, `freed` what it freed.
   */
  datatype Messages = Messages(tosend: seq<Message>, tofailover: seq<Message>, link: Exchange,
                               outgoing: seq<Message>, freed: seq<Message>)

  function RoutableOnly(s: seq<Message>): seq<Message> {
    if s == [] then [] else (if s[0].routable then [s[0]] else []) + RoutableOnly(s[1..])
  }

  function LocalOnly(s: seq<Message>): seq<Message> {
    if s == [] then [] else (if s[0].routable then [] else [s[0]]) + LocalOnly(s[1..])
  }

  /** fd_peer_failover_msg: p_tosend, then p_tofailover, then the sent requests. */
  function FailoverAll(s: Messages): Messages {
    var srs := s.link.cache.srs;
    s.(outgoing := s.outgoing + RoutableOnly(s.tosend) + s.tofailover + Requeued(srs),
       freed := s.freed + LocalOnly(s.tosend) + Requests(Local(srs)),
       tosend := [], tofailover := [], link := Apply(s.link, Failover))
  }

  /** do_send: a request is numbered and stored (or freed, if the id is taken); an answer is just sent. */
  function DoSend(s: Messages, m: Message): Messages {
    var refused := m.request && s.link.nextHbh in ById(s.link.cache.srs);
    s.(link := Apply(s.link, Send(m)), freed := if refused then s.freed + [m] else s.freed)
  }

  /** fd_p_sr_on_disconnect. */
  function Disconnected(s: Messages): Messages {
    s.(link := Apply(s.link, Disconnect), freed := s.freed + Requests(Local(s.link.cache.srs)))
  }

  /** What is done to the messages, one operation at a time. */
  datatype Work =
    | Queue(m: Message)        // at the end of p_tosend
    | Direct(m: Message)       // do_send
    | SendFirst                // do_send for the first message of p_tosend
    | SetAside                 // the first message of p_tosend goes to p_tofailover, or is freed
    | FailAll                  // fd_peer_failover_msg
    | Unlink                   // fd_p_sr_on_disconnect
    | Take(hbh: Id)            // fd_p_sr_fetch
    | Expire(now: Timespec)    // sr_expiry_th

  function Worked(ms: Messages, w: Work): Messages {
    match w
    case Queue(m) => ms.(tosend := ms.tosend + [m])
    case Direct(m) => DoSend(ms, m)
    case SendFirst => if ms.tosend == [] then ms else DoSend(ms.(tosend := ms.tosend[1..]), ms.tosend[0])
    case SetAside =>
      if ms.tosend == [] then ms
      else
        var s := ms.(tosend := ms.tosend[1..]);
        if ms.tosend[0].routable then s.(tofailover := s.tofailover + [ms.tosend[0]])
        else s.(freed := s.freed + [ms.tosend[0]])
    case FailAll => FailoverAll(ms)
    case Unlink => Disconnected(ms)
    case Take(hbh) => ms.(link := Apply(ms.link, Answer(hbh)))
    case Expire(now) => ms.(link := Apply(ms.link, Expiry(now)))
  }

  /** Operations in order: `w` comes last. */
  datatype Works = Nothing | Then(before: Works, w: Work)

  function WorkedAll(ms: Messages, ws: Works): Messages {
    match ws
    case Nothing => ms
    case Then(before, w) => Worked(WorkedAll(ms, before), w)
  }

  /** A message of the base protocol made here: CER, DWR, DPR, their answers, or an error answer. */
  function LinkLocal(request: bool): Message {
    Message(0, 0, request, false, false, None)
  }

  // ---- Control ----

  datatype State =
    | New | Open | Closed | Closing | WaitCnxAck | WaitCnxAckElec | WaitCea | OpenHandshake
    | Suspect | Reopen | OpenNew | ClosingGrace | Zombie

  /** The states with a connection that is, or is about to be, in use. */
  predicate InService(s: State) {
    s == Open || s == OpenNew || s == Reopen
  }

  type TwoBits = x: int | 0 <= x < 4

  datatype Flags = Flags(delete: bool, localTerm: bool, dwPending: bool, cnxPb: bool, reopenCnt: TwoBits)

  /** The out thread: sending, or after an error emptying p_tosend until it is stopped. */
  datatype OutThread = Stopped | Sending | Purging

  /**
   The peer without its messages: `active` is its place in the list of active peers, `cb2` the second validation
   callback, `cnx` and `receiver` tell if it has these connections; `todo` is what was decided about the messages
   in the current turn.
   */
  datatype Control = Control(state: State, flags: Flags, active: bool, out: OutThread, cb2: bool,
                             cnx: bool, receiver: bool, reqin: int, todo: Works)

  function Do(c: Control, w: Work): Control {
    c.(todo := Then(c.todo, w))
  }

  /** fd_out_send, on a connection: through the out thread in OPEN, directly otherwise. */
  function OutSend(c: Control, m: Message): Control {
    Do(c, if c.state == Open then Queue(m) else Direct(m))
  }

  /** Where the failure of fd_out_send for lack of a connection is ignored. */
  function TryOutSend(c: Control, m: Message): Control {
    if c.cnx then OutSend(c, m) else c
  }

  // ---- State changes ----

  function EnterOpen(c: Control): Control {
    if c.active then c
    else if c.cb2 then c.(cb2 := false)
    else c.(active := true, out := Sending)
  }

  function LeaveOpen(c: Control, skipFailover: bool): Control {
    var c' := c.(active := false, out := Stopped);
    if skipFailover then c' else Do(c', FailAll)
  }

  /** fd_psm_change_state; leaving OPEN without a connection fails after the peer is unlinked. */
  function Changed(c: Control, to: State): Control {
    if c.state == to then c
    else if c.state == Open && !c.cnx then c.(state := to, active := false)
    else
      var c0 := c.(state := to);
      var c1 := if c.state == Open then LeaveOpen(c0, to == ClosingGrace) else c0;
      var c2 := if c.state == ClosingGrace then Do(c1, FailAll) else c1;
      var c3 := if to == Open then EnterOpen(c2) else c2;
      if to == Closed then c3.(reqin := 0) else c3
  }

  /** fd_psm_cleanup. */
  function CleanedUp(c: Control): Control {
    var c' := if c.state != Zombie then Changed(c, Closed) else c;
    Do(c', Unlink).(cnx := false, receiver := false)
  }

  /** The end of p_psm_th. */
  function Ended(c: Control): Control {
    var c' := CleanedUp(c);
    c'.(state := Zombie, flags := c'.flags.(cnxPb := false, dwPending := false))
  }

  /** The label psm_reset of p_psm_th. */
  function Reset(c: Control): Control {
    if c.flags.delete then Ended(c) else CleanedUp(c)
  }

  // ---- Watchdog ----

  function SendDwr(c: Control): Control {
    OutSend(c.(flags := c.flags.(dwPending := true)), LinkLocal(true))
  }

  function DwReopened(c: Control): Control {
    SendDwr(c.(flags := c.flags.(reopenCnt := 1, cnxPb := false)))
  }

  function DwTimedOut(c: Control): Control {
    if c.flags.dwPending then Changed(c, Suspect) else SendDwr(c)
  }

  /** pf_reopen_cnt += 1, on two bits. */
  function Bump(cnt: TwoBits): TwoBits {
    if cnt == 3 then 0 else cnt + 1
  }

  /** fd_p_dw_handle after its check of the Origin-State-Id, when what it sends has a connection. */
  function DwHandled(c: Control, request: bool): Control {
    var c1 := if request then OutSend(c, LinkLocal(false)) else c.(flags := c.flags.(dwPending := false));
    if c1.state != Reopen then c1
    else
      var c2 := c1.(flags := c1.flags.(reopenCnt := Bump(c1.flags.reopenCnt)));
      if c2.flags.reopenCnt != 0 then SendDwr(c2) else Changed(c2, Open)
  }

  // ---- Disconnection ----

  function DpInitiated(c: Control): Control {
    TryOutSend(Changed(c, ClosingGrace), LinkLocal(true))
  }

  /** fd_p_dp_handle; `pending` tells if sent requests await an answer. Without a connection no DPA can be sent. */
  function DpHandled(c: Control, request: bool, pending: bool): Control {
    var busy := pending || c.reqin != 0;
    if request then
      var c' := Changed(c, if busy then ClosingGrace else Closing);
      if !c.cnx then Reset(c')
      else if busy then OutSend(c', LinkLocal(false))
      else CleanedUp(OutSend(c', LinkLocal(false)))
    else if busy then c.(flags := c.flags.(localTerm := true))
    else Changed(c, Closing)
  }

  // ---- Capabilities exchange ----

  datatype Security = AlreadySecure | Clear | Handshake(ok: bool) | Disabled

  datatype Cea = Unsaved | TooBusy | ElectionLost | OtherCode | Success(security: Security)

  /** The connection is ready: OPEN, or REOPEN after a connection problem. */
  function Ready(c: Control): Control {
    if c.flags.cnxPb then DwReopened(Changed(c, Reopen)) else Changed(c, Open)
  }

  /** The part of fd_p_ce_msgrcv after a successful CEA; without a connection, starting it or its handshake fails. */
  function Secured(c: Control, security: Security): Control {
    match security
    case Disabled => c.(cnx := false)
    case Handshake(ok) =>
      var c' := Changed(c, OpenHandshake);
      if ok && c.cnx then Ready(c') else c'.(cnx := false)
    case _ => if c.cnx then Ready(c) else Reset(c)
  }

  /** fd_p_ce_msgrcv. */
  function CeReceived(c: Control, request: bool, cea: Cea): Control {
    if request then TryOutSend(c, LinkLocal(false))
    else if c.state != WaitCea then c
    else match cea
      case Unsaved => c.(cnx := false)
      case TooBusy => CleanedUp(c)
      case ElectionLost => c
      case OtherCode => Reset(c)
      case Success(security) => Secured(c, security)
  }

  /** How the incoming CER is judged by fd_p_ce_process_receiver. */
  datatype Verdict = Refused | NoHandshake(unordered: bool) | HandshakeFailed | HandshakeDone(rejected: bool)

  /** set_peer_cnx fails for the receiver side. */
  predicate NoReceiver(c: Control) {
    c.cnx || !c.receiver
  }

  /** fd_p_ce_process_receiver, when the connection can be saved. */
  function ReceiverProcessed(c: Control, v: Verdict): Control {
    var c0 := c.(cnx := true, receiver := false);
    match v
    case Refused => c0.(cnx := false)
    case NoHandshake(unordered) =>
      var c1 := OutSend(c0, LinkLocal(false));
      if c1.flags.cnxPb || !unordered then Ready(c1) else DwTimedOut(Changed(c1, OpenNew))
    case HandshakeFailed => Changed(OutSend(c0, LinkLocal(false)), OpenHandshake).(cnx := false)
    case HandshakeDone(rejected) =>
      var c1 := Changed(OutSend(c0, LinkLocal(false)), OpenHandshake);
      if c1.cb2 && rejected then c1 else Ready(c1)
  }

  /** The receiver side where the state machine stops if the connection cannot be saved. */
  function ReceiverOrEnd(c: Control, v: Verdict): Control {
    if NoReceiver(c) then Ended(c) else ReceiverProcessed(c, v)
  }

  function ToWaitCea(c: Control): Control {
    if c.cnx then c else Changed(c.(cnx := true), WaitCea)
  }

  /** fd_p_ce_handle_newcnx; the CER goes out on the new connection. */
  function NewConnection(c: Control, won: bool, v: Verdict): Control {
    var c1 := OutSend(c, LinkLocal(true));
    if c1.state != WaitCnxAckElec then ToWaitCea(c1)
    else if won then (if NoReceiver(c1) then c1 else ReceiverProcessed(c1, v))
    else ToWaitCea(c1.(receiver := false))
  }

  /** fd_p_ce_handle_newCER. */
  function NewCer(c: Control, won: bool, v: Verdict): Control {
    if c.state == Closed then ReceiverOrEnd(c.(receiver := true), v)
    else if c.state == WaitCnxAck then Changed(c.(receiver := true), WaitCnxAckElec)
    else if c.state == WaitCea && won then ReceiverOrEnd(c.(cnx := false, receiver := true), v)
    else c
  }

  // ---- Events ----

  datatype Command = CapabilitiesExchange(cea: Cea) | DisconnectPeer | DeviceWatchdog(stateIdOk: bool) | Unknown

  /** What fd_msg_parse_or_error makes of a link-local message. */
  datatype Parsing = Understood(c: Command) | ErrorAnswered | InvalidAnswer | ParseFailure

  datatype Received = Unparsable | Parsed(request: bool, hbh: Id, routable: bool, parsing: Parsing)

  datatype Event =
    | Terminate
    | MsgRecv(m: Received)
    | CnxError(v: Verdict)
    | CnxEpChange
    | CnxShutdown
    | CnxIncoming(won: bool, v: Verdict)
    | CnxEstablished(won: bool, v: Verdict)
    | CnxFailed(v: Verdict)
    | PsmTimeout(v: Verdict)

  /** What a turn looks up in the cache: if the id of an answer is there, and if then requests are left in it. */
  datatype Lookup = Lookup(known: bool, pending: bool)

  predicate AcceptsRoutable(s: State) {
    s == Reopen || s == Suspect || s == Closing || s == ClosingGrace || s == OpenNew || s == Open
  }

  function CommandHandled(c: Control, request: bool, cmd: Command, pending: bool): Control {
    match cmd
    case CapabilitiesExchange(cea) => CeReceived(c, request, cea)
    case DisconnectPeer =>
      var c' := DpHandled(c, request, pending);
      if c'.state == Closing then Ended(c') else c'
    case DeviceWatchdog(stateIdOk) => if stateIdOk && (request ==> c.cnx) then DwHandled(c, request) else Reset(c)
    case Unknown => if request then TryOutSend(c, LinkLocal(false)) else c
  }

  function LinkLocalHandled(c: Control, request: bool, parsing: Parsing, pending: bool): Control {
    match parsing
    case ParseFailure => Ended(c)
    case ErrorAnswered => TryOutSend(c, LinkLocal(false))
    case InvalidAnswer => c
    case Understood(cmd) => CommandHandled(c, request, cmd, pending)
  }

  /** A parsed message, once an answer is matched with its request. */
  function Handled(c: Control, m: Received, pending: bool): Control
    requires m.Parsed?
  {
    var c' := if c.state == OpenNew then Changed(c, Open) else c;
    if !m.routable then LinkLocalHandled(c', m.request, m.parsing, pending)
    else if AcceptsRoutable(c.state) && m.request then c'.(reqin := c'.reqin + 1)
    else c'
  }

  function MessageReceived(c: Control, m: Received, l: Lookup): Control {
    if m.Unparsable? || c.state == Closed then c
    else if m.request then Handled(c, m, l.pending)
    else if l.known then Handled(Do(c, Take(m.hbh)), m, l.pending)
    else Do(c, Take(m.hbh))
  }

  /** The end of the grace period, or the loss of the connection during it. */
  function GraceOver(c: Control): Control {
    if c.flags.localTerm then Ended(c) else CleanedUp(c)
  }

  function WithProblem(c: Control): Control {
    c.(flags := c.flags.(cnxPb := true))
  }

  function OnTerminate(c: Control): Control {
    if InService(c.state) then DpInitiated(c) else Ended(c)
  }

  function OnCnxError(c: Control, v: Verdict): Control {
    if c.state == WaitCnxAckElec then ReceiverOrEnd(c, v)
    else if c.state == Closed then Reset(c)
    else if c.state == Closing then Ended(c)
    else if c.state == ClosingGrace then GraceOver(c)
    else Reset(WithProblem(c))
  }

  function OnFailed(c: Control, v: Verdict): Control {
    if c.state == WaitCnxAckElec then ReceiverOrEnd(c, v)
    else if c.state == WaitCnxAck then Reset(c)
    else c
  }

  function OnTimeout(c: Control, v: Verdict): Control {
    if InService(c.state) then DwTimedOut(c)
    else if c.state == Closed then Changed(c, WaitCnxAck)
    else if c.state == Suspect then Reset(WithProblem(c))
    else if c.state == ClosingGrace then GraceOver(c)
    else if c.state == WaitCnxAckElec then ReceiverOrEnd(c, v)
    else Reset(c)
  }

  /** One turn of p_psm_th. */
  function Turn(c: Control, e: Event, l: Lookup): Control {
    match e
    case Terminate => OnTerminate(c)
    case MsgRecv(m) => MessageReceived(c, m, l)
    case CnxError(v) => OnCnxError(c, v)
    case CnxEpChange => c
    case CnxShutdown => Reset(c)
    case CnxIncoming(won, v) => NewCer(c, won, v)
    case CnxEstablished(won, v) => if c.state in {WaitCnxAck, WaitCnxAckElec} then NewConnection(c, won, v) else c
    case CnxFailed(v) => OnFailed(c, v)
    case PsmTimeout(v) => OnTimeout(c, v)
  }

  // ---- Steps of all the threads ----

  /** A peer: between turns nothing is left to do. */
  datatype Peer = Peer(c: Control, ms: Messages)

  /** What is decided is done. */
  function Settle(c: Control, ms: Messages): Peer {
    Peer(c.(todo := Nothing), WorkedAll(ms, c.todo))
  }

  function LookedUp(ms: Messages, e: Event): Lookup {
    if e.MsgRecv? && e.m.Parsed? && !e.m.request then
      Lookup(e.m.hbh in ById(ms.link.cache.srs), Apply(ms.link, Answer(e.m.hbh)).cache.cnt != 0)
    else Lookup(false, ms.link.cache.cnt != 0)
  }

  datatype Step =
    | Start                            // fd_psm_begin: the thread of the state machine starts
    | Psm(e: Event)                    // it handles an event
    | Restart                          // a new CER revives a zombie
    | RouteRequest(m: Message)         // the routing thread finds the peer in OPEN and calls fd_out_send
    | RouteAnswer(m: Message)          // any thread sends an answer with fd_out_send
    | OutSends(ok: bool)               // the out thread sends the next message; ok: the connection took it
    | OutPurges                        // the out thread, after an error, sets the next message aside
    | Expires(now: Timespec)           // the expiry thread
    | ValidatorAnswers(cb2: bool)      // a validation callback sets or clears p_cb2

  /** When a step may happen; RouteRequest is the check of the state and fd_out_send in one. */
  predicate Enabled(p: Peer, s: Step) {
    match s
    case Start => p.c.state == New
    case Psm(_) => p.c.state != New && p.c.state != Zombie
    case Restart => p.c.state == Zombie
    case RouteRequest(m) => m.request && m.routable && p.c.state == Open && p.c.cnx
    case RouteAnswer(m) => !m.request
    case OutSends(_) => p.c.out == Sending && p.ms.tosend != []
    case OutPurges => p.c.out == Purging && p.ms.tosend != []
    case Expires(_) => true
    case ValidatorAnswers(_) => true
  }

  /** do_send refuses a request whose id is still in use. */
  predicate Collides(ms: Messages, m: Message) {
    m.request && ms.link.nextHbh in ById(ms.link.cache.srs)
  }

  /** What a step other than a turn decides. */
  function Decided(p: Peer, s: Step): Control
    requires Enabled(p, s) && !s.Psm?
  {
    match s
    case Start => p.c.(state := Closed)
    case Restart => p.c.(state := New, flags := p.c.flags.(localTerm := false))
    case RouteRequest(m) => OutSend(p.c, m)
    case RouteAnswer(m) => if p.c.cnx then OutSend(p.c.(reqin := p.c.reqin - 1), m) else p.c
    case OutSends(ok) =>
      Do(p.c, SendFirst).(out := if ok && !Collides(p.ms, p.ms.tosend[0]) then Sending else Purging)
    case OutPurges => Do(p.c, SetAside)
    case Expires(now) => Do(p.c, Expire(now))
    case ValidatorAnswers(cb2) => p.c.(cb2 := cb2)
  }

  function After(p: Peer, s: Step): Peer
    requires Enabled(p, s)
  {
    if s.Psm? then Settle(Turn(p.c, s.e, LookedUp(p.ms, s.e)), p.ms) else Settle(Decided(p, s), p.ms)
  }

  function Initial(flags: Flags, first: Id): Peer {
    Peer(Control(New, flags, false, Stopped, false, false, false, 0, Nothing), Messages([], [], Fresh(first), [], []))
  }

  ghost predicate PeerRun(ps: seq<Peer>, steps: seq<Step>) {
    && |ps| == |steps| + 1
    && ps[0] == Initial(ps[0].c.flags, ps[0].ms.link.first)
    && forall i :: 0 <= i < |steps| ==> Enabled(ps[i], steps[i]) && ps[i + 1] == After(ps[i], steps[i])
  }
}
