/**
 The sessions of the gateway (twag_core.cpp, session_manager.cpp, ue_session.hpp): one thread runs the event loop
 (RADIUS, GTP, DHCP, timers) and is the only one to create sessions; the dispatch threads of Diameter handle
 answers (DEA) and aborts (ASR), and may only remove sessions. A session is a shared object that outlives its
 place in the table, so each access to the table or to a session is a step of its own here.
 */
module Twag {

  import opened Lists

  const WORD := 0x1_0000_0000
  const HALF := 0x8000_0000

  type Teid = x: int | 0 <= x < WORD
  type Address = x: int | 0 <= x < WORD

  datatype SessionState = INIT | AUTH_PENDING | GTP_CREATE_PENDING | CONNECTED | DISCONNECTING

  /** What happened to a session: history, kept by no field of the program. */
  datatype Deed =
    | DerSent                                         // a DER was sent for it
    | Judged(avp: Option<nat>, found: SessionState)   // a DEA with this Result-Code was looked at, in this state
    | Answered(teid: Teid, ueIp: Address)             // a Create Session Response for this TEID was taken

  datatype Session =
    Session(mac: string, state: SessionState, teidC: Teid, teidU: Teid, ueIp: Address, deeds: seq<Deed>)

  /** The event loop: idle, or inside a handler, between two accesses to what is shared. */
  datatype Loop =
    | Idle
    | Admitting(mac: string)                            // handle_radius_access_request: no session yet
    | Creating(mac: string)                             // there is room for one more
    | Authenticating(s: nat)                            // about to send the DER
    | MarkingAuth(s: nat)                               // the DER is sent, the state is not set yet
    | Responding(s: nat, teid: Teid, ip: Address)       // on_gtp_create_response_received: session found
    | Installing(s: nat, teid: Teid, ip: Address)       // the state was GTP_CREATE_PENDING
    | Connecting(s: nat)                                // the fields are set, the tunnel is being set up
    | Offering(s: nat)                                  // handle_dhcp_discover, handle_dhcp_request
    | Dropping(s: nat)                                  // on_gtp_delete_bearer_request_received
    | Removing(mac: string)                             // about to call remove_session

  /** A dispatch thread. */
  datatype Dispatch =
    | Waiting
    | Checking(s: nat, avp: Option<nat>)    // on_dea_received: session found
    | Requesting(s: nat)                    // accepted, about to send the Create Session Request
    | Aborting(s: nat)                      // on_aaa_abort_session_received: session found
    | Erasing(mac: string)                  // about to call remove_session

  /**
   The whole: the limit of the configuration, all sessions ever created, in order; the table; the counters; the
   threads; and what DHCP offered, with the session it was for.
   */
  datatype Gateway = Gateway(max: nat, sessions: seq<Session>, table: map<string, nat>, nextTeid: Teid,
                             connections: nat, disconnections: nat, rejected: nat,
                             loop: Loop, dispatch: seq<Dispatch>, offers: seq<(nat, Address)>)

  /** next_teid_.fetch_add, on 32 bits. */
  function Plus(t: Teid, n: nat): Teid {
    (t + n) % WORD
  }

  /** create_session; ue_ip_ is not initialised, so it can be anything. */
  function Created(g: Gateway, mac: string, ip: Address): Gateway {
    var s := Session(mac, INIT, g.nextTeid, Plus(g.nextTeid, 1), ip, []);
    g.(sessions := g.sessions + [s], table := g.table[mac := |g.sessions|],
       nextTeid := Plus(g.nextTeid, 2), connections := g.connections + 1)
  }

  /** remove_session. */
  function Removed(g: Gateway, mac: string): Gateway {
    if mac in g.table then g.(table := g.table - {mac}, disconnections := g.disconnections + 1) else g
  }

  /** dea_cb: a missing Result-Code, and UNABLE_TO_DELIVER, count as success. */
  function ResultCode(avp: Option<nat>): nat {
    match avp
    case None => 2001
    case Some(code) => if code == 3002 then 2001 else code
  }

  // ---- The event loop ----

  datatype LoopStep =
    | Radius(mac: string)                                     // get_session
    | Admit                                                   // get_active_sessions_count
    | Create(ip: Address)                                     // create_session
    | SendDer(ok: bool)                                       // fd_msg_send in send_der
    | MarkAuth                                                // set_state(AUTH_PENDING)
    | Response(found: Option<nat>, teid: Teid, ip: Address)   // get_session_by_teid_c
    | CheckPending                                            // get_state
    | Install                                                 // the fields of the session
    | Connect(ok: bool)                                       // setup_kernel_gtpu_tunnel, set_state(CONNECTED)
    | Dhcp(mac: string)                                       // get_session
    | Offer                                                   // get_state, ue_ip_
    | DeleteBearer(found: Option<nat>, teid: Teid)            // get_session_by_teid_c
    | Drop                                                    // set_state(DISCONNECTING)
    | Timeout(mac: string)                                    // the timer of the Create Session Request
    | Stop(mac: string)                                       // disconnect_ue: get_session
    | Remove                                                  // remove_session

  /** get_session_by_teid_c: a session of the table with this TEID, whichever the map gives first, or none. */
  ghost predicate FoundByTeid(g: Gateway, teid: Teid, found: Option<nat>) {
    match found
    case None => forall mac :: mac in g.table && g.table[mac] < |g.sessions| ==> g.sessions[g.table[mac]].teidC != teid
    case Some(i) => i < |g.sessions| && g.sessions[i].teidC == teid && exists mac :: mac in g.table && g.table[mac] == i
  }

  /** The session the event loop is working on is one there is. */
  ghost predicate Sane(g: Gateway) {
    && SaneLoop(g.loop, |g.sessions|)
    && (forall mac :: mac in g.table ==> g.table[mac] < |g.sessions|)
    && (forall d :: 0 <= d < |g.dispatch| ==> SaneDispatch(g.dispatch[d], |g.sessions|))
  }

  ghost predicate SaneLoop(l: Loop, n: nat) {
    match l
    case Authenticating(s) => s < n
    case MarkingAuth(s) => s < n
    case Responding(s, _, _) => s < n
    case Installing(s, _, _) => s < n
    case Connecting(s) => s < n
    case Offering(s) => s < n
    case Dropping(s) => s < n
    case _ => true
  }

  ghost predicate SaneDispatch(d: Dispatch, n: nat) {
    d.Checking? || d.Requesting? || d.Aborting? ==> d.s < n
  }

  ghost predicate LoopEnabled(g: Gateway, s: LoopStep) {
    match s
    case Radius(_) => g.loop == Idle
    case Admit => g.loop.Admitting?
    case Create(_) => g.loop.Creating?
    case SendDer(_) => g.loop.Authenticating?
    case MarkAuth => g.loop.MarkingAuth?
    case Response(found, teid, _) => g.loop == Idle && FoundByTeid(g, teid, found)
    case CheckPending => g.loop.Responding?
    case Install => g.loop.Installing?
    case Connect(_) => g.loop.Connecting?
    case Dhcp(_) => g.loop == Idle
    case Offer => g.loop.Offering?
    case DeleteBearer(found, teid) => g.loop == Idle && FoundByTeid(g, teid, found)
    case Drop => g.loop.Dropping?
    case Timeout(mac) => g.loop == Idle && mac in g.table
    case Stop(_) => g.loop == Idle
    case Remove => g.loop.Removing?
  }

  ghost function Looped(g: Gateway, s: LoopStep): Gateway
    requires Sane(g) && LoopEnabled(g, s)
  {
    match s
    case Radius(mac) => g.(loop := if mac in g.table then Authenticating(g.table[mac]) else Admitting(mac))
    case Admit =>
      if |g.table| >= g.max then g.(loop := Idle, rejected := g.rejected + 1) else g.(loop := Creating(g.loop.mac))
    case Create(ip) => Created(g, g.loop.mac, ip).(loop := Authenticating(|g.sessions|))
    case SendDer(ok) =>
      if ok then Noted(g, g.loop.s, DerSent).(loop := MarkingAuth(g.loop.s)) else g.(loop := Idle)
    case MarkAuth => Marked(g, g.loop.s, AUTH_PENDING).(loop := Idle)
    case Response(found, teid, ip) =>
      g.(loop := if found.Some? then Responding(found.value, teid, ip) else Idle)
    case CheckPending =>
      if g.sessions[g.loop.s].state == GTP_CREATE_PENDING then g.(loop := Installing(g.loop.s, g.loop.teid, g.loop.ip))
      else g.(loop := Idle)
    case Install => Installed(g, g.loop.s, g.loop.teid, g.loop.ip).(loop := Connecting(g.loop.s))
    case Connect(ok) =>
      if ok then Marked(g, g.loop.s, CONNECTED).(loop := Idle) else g.(loop := Idle)
    case Dhcp(mac) => g.(loop := if mac in g.table then Offering(g.table[mac]) else Idle)
    case Offer =>
      var s := g.sessions[g.loop.s];
      g.(loop := Idle,
         offers := if s.state == CONNECTED && s.ueIp != 0 then g.offers + [(g.loop.s, s.ueIp)] else g.offers)
    case DeleteBearer(found, _) => g.(loop := if found.Some? then Dropping(found.value) else Idle)
    case Drop => Marked(g, g.loop.s, DISCONNECTING).(loop := Removing(g.sessions[g.loop.s].mac))
    case Timeout(mac) =>
      g.(loop := if g.sessions[g.table[mac]].state == GTP_CREATE_PENDING then Removing(mac) else Idle)
    case Stop(mac) => g.(loop := if mac in g.table then Removing(mac) else Idle)
    case Remove => Removed(g, g.loop.mac).(loop := Idle)
  }

  /** A deed is noted, a state is set, or the response is written into a session. */
  function Noted(g: Gateway, i: nat, d: Deed): Gateway
    requires i < |g.sessions|
  {
    g.(sessions := g.sessions[i := g.sessions[i].(deeds := g.sessions[i].deeds + [d])])
  }

  function Marked(g: Gateway, i: nat, st: SessionState): Gateway
    requires i < |g.sessions|
  {
    g.(sessions := g.sessions[i := g.sessions[i].(state := st)])
  }

  function Installed(g: Gateway, i: nat, teid: Teid, ip: Address): Gateway
    requires i < |g.sessions|
  {
    var s := g.sessions[i];
    g.(sessions := g.sessions[i := s.(ueIp := ip, deeds := s.deeds + [Answered(teid, ip)])])
  }

  // ---- The dispatch threads ----

  datatype DispatchStep =
    | Dea(mac: string, avp: Option<nat>)    // dea_cb, get_session
    | CheckAuth                             // get_state
    | Request(ok: bool)                     // send_create_session_request, set_state(GTP_CREATE_PENDING)
    | Asr(mac: string)                      // get_session
    | Abort                                 // set_state(DISCONNECTING)
    | Erase                                 // remove_session

  ghost predicate DispatchEnabled(d: Dispatch, s: DispatchStep) {
    match s
    case Dea(_, _) => d == Waiting
    case CheckAuth => d.Checking?
    case Request(_) => d.Requesting?
    case Asr(_) => d == Waiting
    case Abort => d.Aborting?
    case Erase => d.Erasing?
  }

  /** What the thread does next. */
  ghost function NextOf(g: Gateway, d: Dispatch, s: DispatchStep): Dispatch
    requires Sane(g) && SaneDispatch(d, |g.sessions|) && DispatchEnabled(d, s)
  {
    match s
    case Dea(mac, avp) => if mac in g.table then Checking(g.table[mac], avp) else Waiting
    case CheckAuth =>
      if g.sessions[d.s].state == AUTH_PENDING && ResultCode(d.avp) == 2001 then Requesting(d.s) else Waiting
    case Request(_) => Waiting
    case Asr(mac) => if mac in g.table then Aborting(g.table[mac]) else Waiting
    case Abort => Erasing(g.sessions[d.s].mac)
    case Erase => Waiting
  }

  /** What it does to what is shared. */
  ghost function EffectOf(g: Gateway, d: Dispatch, s: DispatchStep): Gateway
    requires Sane(g) && SaneDispatch(d, |g.sessions|) && DispatchEnabled(d, s)
  {
    match s
    case Dea(_, _) => g
    case CheckAuth => Noted(g, d.s, Judged(d.avp, g.sessions[d.s].state))
    case Request(ok) => if ok then Marked(g, d.s, GTP_CREATE_PENDING) else g
    case Asr(_) => g
    case Abort => Marked(g, d.s, DISCONNECTING)
    case Erase => Removed(g, d.mac)
  }

  datatype Step = ByLoop(l: LoopStep) | ByDispatch(d: nat, s: DispatchStep)

  ghost predicate Enabled(g: Gateway, s: Step) {
    match s
    case ByLoop(l) => LoopEnabled(g, l)
    case ByDispatch(d, s) => d < |g.dispatch| && DispatchEnabled(g.dispatch[d], s)
  }

  ghost function After(g: Gateway, s: Step): Gateway
    requires Sane(g) && Enabled(g, s)
  {
    match s
    case ByLoop(l) => Looped(g, l)
    case ByDispatch(d, s) =>
      EffectOf(g, g.dispatch[d], s).(dispatch := g.dispatch[d := NextOf(g, g.dispatch[d], s)])
  }

  ghost function Initial(max: nat, threads: nat): Gateway {
    Gateway(max, [], map[], 1, 0, 0, 0, Idle, seq(threads, _ => Waiting), [])
  }
}
