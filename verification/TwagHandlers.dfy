/**
 The handlers of the gateway (twag_core.cpp) as wholes. First, what each of them does when no other thread comes
 between its accesses: its steps, one after the other, have the outcome stated. Second, over all interleavings, why a
 session leaves the table.
 */
module TwagHandlers {

  import opened Lists
  import opened Twag
  import opened TwagInvariants

  // ---- One handler, undisturbed ----

  /** The gateway with one session replaced. */
  ghost function Put(g: Gateway, i: nat, s: Session): Gateway
    requires i < |g.sessions|
  {
    g.(sessions := g.sessions[i := s])
  }

  /** The DER is sent, or can not be sent. */
  lemma AuthenticationStarts(g: Gateway, ok: bool)
    requires Sane(g) && g.loop.Authenticating?
    ensures var g1 := Looped(g, SendDer(ok));
            && Sane(g1) && (ok ==> LoopEnabled(g1, MarkAuth))
            && var i, s := g.loop.s, g.sessions[g.loop.s];
               if !ok then g1 == g.(loop := Idle)
               else Looped(g1, MarkAuth) ==
                    Put(g, i, s.(state := AUTH_PENDING, deeds := s.deeds + [DerSent])).(loop := Idle)
  {
  }

  /**
   handle_radius_access_request: a known station starts again with its session; a new one gets a session with the
   next two TEIDs if there is room, and is counted as rejected otherwise.
   */
  lemma RadiusHandled(g: Gateway, mac: string, ip: Address)
    requires Sane(g) && g.loop == Idle
    ensures var g1 := Looped(g, Radius(mac));
            if mac in g.table then g1 == g.(loop := Authenticating(g.table[mac]))
            else
              && Sane(g1) && LoopEnabled(g1, Admit)
              && var g2 := Looped(g1, Admit);
                 if |g.table| >= g.max then g2 == g.(rejected := g.rejected + 1)
                 else
                   && Sane(g2) && LoopEnabled(g2, Create(ip))
                   && Looped(g2, Create(ip)) ==
                      g.(sessions := g.sessions
                           + [Session(mac, INIT, g.nextTeid, (g.nextTeid + 1) % 0x1_0000_0000, ip, [])],
                         table := g.table[mac := |g.sessions|], nextTeid := (g.nextTeid + 2) % 0x1_0000_0000,
                         connections := g.connections + 1, loop := Authenticating(|g.sessions|))
  {
  }

  /**
   on_gtp_create_response_received: only a session of this TEID that waits for it takes the address, and is CONNECTED
   if the tunnel can be set up.
   */
  lemma ResponseHandled(g: Gateway, found: Option<nat>, teid: Teid, ip: Address, tunnel: bool)
    requires Sane(g) && g.loop == Idle && FoundByTeid(g, teid, found)
    ensures var g1 := Looped(g, Response(found, teid, ip));
            if found.None? then g1 == g
            else
              && Sane(g1) && LoopEnabled(g1, CheckPending)
              && var g2, i := Looped(g1, CheckPending), found.value;
                 if g.sessions[i].state != GTP_CREATE_PENDING then g2 == g
                 else
                   && Sane(g2) && LoopEnabled(g2, Install)
                   && var g3, s := Looped(g2, Install), g.sessions[i];
                      && Sane(g3) && LoopEnabled(g3, Connect(tunnel))
                      && Looped(g3, Connect(tunnel)) ==
                         Put(g, i, s.(ueIp := ip, deeds := s.deeds + [Answered(teid, ip)],
                                      state := if tunnel then CONNECTED else GTP_CREATE_PENDING))
  {
  }

  /** handle_dhcp_discover, handle_dhcp_request: an offer exactly for a connected session with an address. */
  lemma DhcpHandled(g: Gateway, mac: string)
    requires Sane(g) && g.loop == Idle
    ensures var g1 := Looped(g, Dhcp(mac));
            if mac !in g.table then g1 == g
            else
              && Sane(g1) && LoopEnabled(g1, Offer)
              && var s := g.sessions[g.table[mac]];
                 Looped(g1, Offer) ==
                 if s.state == CONNECTED && s.ueIp != 0 then g.(offers := g.offers + [(g.table[mac], s.ueIp)]) else g
  {
  }

  /** The entry of a station, if there is one, leaves the table and is counted. */
  ghost function Without(g: Gateway, mac: string): Gateway {
    if mac in g.table then g.(table := g.table - {mac}, disconnections := g.disconnections + 1) else g
  }

  /** on_gtp_delete_bearer_request_received: the session of this TEID is DISCONNECTING, and out of the table. */
  lemma DeleteBearerHandled(g: Gateway, found: Option<nat>, teid: Teid)
    requires Sane(g) && g.loop == Idle && FoundByTeid(g, teid, found)
    ensures var g1 := Looped(g, DeleteBearer(found, teid));
            if found.None? then g1 == g
            else
              && Sane(g1) && LoopEnabled(g1, Drop)
              && var g2, i := Looped(g1, Drop), found.value;
                 && Sane(g2) && LoopEnabled(g2, Remove)
                 && Looped(g2, Remove) ==
                    Without(Put(g, i, g.sessions[i].(state := DISCONNECTING)), g.sessions[i].mac)
  {
  }

  /** The timer of the Create Session Request: the station is disconnected if and only if it still waits. */
  lemma TimerHandled(g: Gateway, mac: string)
    requires Sane(g) && g.loop == Idle && mac in g.table
    ensures var g1 := Looped(g, Timeout(mac));
            if g.sessions[g.table[mac]].state == GTP_CREATE_PENDING then
              Sane(g1) && LoopEnabled(g1, Remove) && Looped(g1, Remove) == Without(g, mac)
            else g1 == g
  {
  }

  /** disconnect_ue. */
  lemma StopHandled(g: Gateway, mac: string)
    requires Sane(g) && g.loop == Idle
    ensures var g1 := Looped(g, Stop(mac));
            if mac in g.table then Sane(g1) && LoopEnabled(g1, Remove) && Looped(g1, Remove) == Without(g, mac)
            else g1 == g
  {
  }

  /** What thread d has at hand. */
  ghost function Thread(g: Gateway, d: nat, t: Dispatch): Gateway
    requires d < |g.dispatch|
  {
    g.(dispatch := g.dispatch[d := t])
  }

  /**
   on_dea_received: only a session that waits for it goes on, only if the Result-Code is 2001, 3002 or missing, and it
   is GTP_CREATE_PENDING if the Create Session Request could be sent.
   */
  lemma DeaHandled(g: Gateway, d: nat, mac: string, avp: Option<nat>, request: bool)
    requires Sane(g) && d < |g.dispatch| && g.dispatch[d] == Waiting
    ensures var g1 := After(g, ByDispatch(d, Dea(mac, avp)));
            if mac !in g.table then g1 == g
            else
              var i := g.table[mac];
              var s := g.sessions[i].(deeds := g.sessions[i].deeds + [Judged(avp, g.sessions[i].state)]);
              && g1 == Thread(g, d, Checking(i, avp))
              && Sane(g1) && Enabled(g1, ByDispatch(d, CheckAuth))
              && var g2 := After(g1, ByDispatch(d, CheckAuth));
                 if s.state == AUTH_PENDING && (avp == None || avp == Some(2001) || avp == Some(3002)) then
                   && g2 == Thread(Put(g, i, s), d, Requesting(i))
                   && Sane(g2) && Enabled(g2, ByDispatch(d, Request(request)))
                   && After(g2, ByDispatch(d, Request(request))) ==
                      Put(g, i, if request then s.(state := GTP_CREATE_PENDING) else s)
                 else g2 == Put(g, i, s)
  {
    assert g.dispatch[d := Waiting] == g.dispatch;
  }

  /** on_aaa_abort_session_received. */
  lemma AbortHandled(g: Gateway, d: nat, mac: string)
    requires Sane(g) && d < |g.dispatch| && g.dispatch[d] == Waiting
    ensures var g1 := After(g, ByDispatch(d, Asr(mac)));
            if mac !in g.table then g1 == g
            else
              var i := g.table[mac];
              && g1 == Thread(g, d, Aborting(i)) && Sane(g1) && Enabled(g1, ByDispatch(d, Abort))
              && var g2 := After(g1, ByDispatch(d, Abort));
                 && g2 == Thread(Put(g, i, g.sessions[i].(state := DISCONNECTING)), d, Erasing(g.sessions[i].mac))
                 && Sane(g2) && Enabled(g2, ByDispatch(d, Erase))
                 && After(g2, ByDispatch(d, Erase)) ==
                    Without(Put(g, i, g.sessions[i].(state := DISCONNECTING)), g.sessions[i].mac)
  {
    assert g.dispatch[d := Waiting] == g.dispatch;
  }

  // ---- Why a session leaves the table ----

  /** The step by which the event loop decides to remove the entry of a station. */
  ghost predicate LoopBegins(g: Gateway, s: Step, mac: string) {
    && Sane(g) && Enabled(g, s)
    && (|| (s == ByLoop(Stop(mac)) && mac in g.table)
        || (s == ByLoop(Drop) && g.sessions[g.loop.s].mac == mac)
        || (s == ByLoop(Timeout(mac)) && g.sessions[g.table[mac]].state == GTP_CREATE_PENDING))
  }

  /** The step by which a dispatch thread does. */
  ghost predicate DispatchBegins(g: Gateway, s: Step, d: nat, mac: string) {
    && Sane(g) && Enabled(g, s) && s == ByDispatch(d, Abort)
    && SaneDispatch(g.dispatch[d], |g.sessions|) && g.sessions[g.dispatch[d].s].mac == mac
  }

  /** These steps, and no others, lead the event loop to a removal. */
  lemma LoopRemovesExactlyWhen(g: Gateway, s: Step, mac: string)
    requires Sane(g) && Enabled(g, s) && g.loop != Removing(mac)
    ensures After(g, s).loop == Removing(mac) <==> LoopBegins(g, s, mac)
  {
    if s.ByDispatch? {
      assert SaneDispatch(g.dispatch[s.d], |g.sessions|);
    }
  }

  lemma DispatchErasesExactlyWhen(g: Gateway, s: Step, d: nat, mac: string)
    requires Sane(g) && Enabled(g, s) && d < |g.dispatch| && g.dispatch[d] != Erasing(mac)
    ensures After(g, s).dispatch[d] == Erasing(mac) <==> DispatchBegins(g, s, d, mac)
  {
    if s.ByDispatch? {
      assert SaneDispatch(g.dispatch[s.d], |g.sessions|);
    }
  }

  /** An entry of the table goes or changes only by the last step of a removal. */
  lemma EntryGoesOnlyBy(g: Gateway, s: Step, mac: string)
    requires Sane(g) && TableInv(g) && Enabled(g, s) && mac in g.table
    ensures (mac in After(g, s).table && After(g, s).table[mac] == g.table[mac]) ||
            (s == ByLoop(Remove) && g.loop == Removing(mac)) ||
            (s.ByDispatch? && s.s == Erase && g.dispatch[s.d] == Erasing(mac))
  {
    if s.ByDispatch? {
      assert SaneDispatch(g.dispatch[s.d], |g.sessions|);
    }
  }

  /** Every removal by the event loop was begun. */
  lemma {:induction false} LoopHasBegun(gs: seq<Gateway>, steps: seq<Step>, max: nat, threads: nat, k: nat, mac: string)
      returns (j: nat)
    requires GatewayRun(gs, steps, max, threads) && k <= |steps| && gs[k].loop == Removing(mac)
    ensures j < k && LoopBegins(gs[j], steps[j], mac) && forall i :: j < i <= k ==> gs[i].loop == Removing(mac)
  {
    assert k > 0;
    RunKeepsInv(gs, steps, max, threads, k - 1, ALL);
    if gs[k - 1].loop == Removing(mac) {
      j := LoopHasBegun(gs, steps, max, threads, k - 1, mac);
    } else {
      j := k - 1;
      LoopRemovesExactlyWhen(gs[j], steps[j], mac);
    }
  }

  lemma {:induction false} DispatchHasBegun(gs: seq<Gateway>, steps: seq<Step>, max: nat, threads: nat,
                                            k: nat, d: nat, mac: string)
      returns (j: nat)
    requires GatewayRun(gs, steps, max, threads) && k <= |steps|
    requires d < |gs[k].dispatch| && gs[k].dispatch[d] == Erasing(mac)
    ensures j < k && DispatchBegins(gs[j], steps[j], d, mac)
  {
    assert k > 0;
    RunKeepsInv(gs, steps, max, threads, k - 1, ALL);
    SameThreads(gs[k - 1], steps[k - 1]);
    if gs[k - 1].dispatch[d] == Erasing(mac) {
      j := DispatchHasBegun(gs, steps, max, threads, k - 1, d, mac);
    } else {
      j := k - 1;
      DispatchErasesExactlyWhen(gs[j], steps[j], d, mac);
    }
  }

  lemma SameThreads(g: Gateway, s: Step)
    requires Sane(g) && Enabled(g, s)
    ensures |After(g, s).dispatch| == |g.dispatch|
  {
    if s.ByDispatch? {
      assert SaneDispatch(g.dispatch[s.d], |g.sessions|);
    }
  }

  /** Session i is not connected, and the station has no other. */
  ghost predicate Unconnected(g: Gateway, mac: string, i: nat) {
    i < |g.sessions| && g.sessions[i].state != CONNECTED && (mac in g.table ==> g.table[mac] == i)
  }

  /** While the event loop removes an entry, nobody connects a session, and entries only go. */
  lemma RemovalConnectsNobody(g: Gateway, s: Step, mac: string, i: nat)
    requires Sane(g) && Enabled(g, s) && g.loop == Removing(mac) && After(g, s).loop == Removing(mac)
    requires Unconnected(g, mac, i)
    ensures Unconnected(After(g, s), mac, i)
  {
    if s.ByDispatch? {
      assert SaneDispatch(g.dispatch[s.d], |g.sessions|);
    }
  }

  lemma RunSteps(gs: seq<Gateway>, steps: seq<Step>, max: nat, threads: nat, k: nat)
    requires GatewayRun(gs, steps, max, threads) && k < |steps|
    ensures Sane(gs[k]) && Enabled(gs[k], steps[k]) && gs[k + 1] == After(gs[k], steps[k])
  {
    RunKeepsInv(gs, steps, max, threads, k, ALL);
  }

  lemma {:induction false} StaysUnconnected(gs: seq<Gateway>, steps: seq<Step>, max: nat, threads: nat,
                                            j: nat, k: nat, mac: string, i: nat)
    requires GatewayRun(gs, steps, max, threads) && j <= k <= |steps| && Unconnected(gs[j], mac, i)
    requires forall n :: j <= n <= k ==> gs[n].loop == Removing(mac)
    ensures Unconnected(gs[k], mac, i)
  {
    if k > j {
      StaysUnconnected(gs, steps, max, threads, j, k - 1, mac, i);
      RunSteps(gs, steps, max, threads, k - 1);
      assert gs[k - 1].loop == Removing(mac) && gs[k].loop == Removing(mac);
      RemovalConnectsNobody(gs[k - 1], steps[k - 1], mac, i);
    }
  }

  /**
   In every run: a step of the timer leads to a removal if and only if the session of that station is
   GTP_CREATE_PENDING at that moment.
   */
  lemma TimerRemovesExactlyWhen(gs: seq<Gateway>, steps: seq<Step>, max: nat, threads: nat, k: nat, mac: string)
    requires GatewayRun(gs, steps, max, threads) && k < |steps| && steps[k] == ByLoop(Timeout(mac))
    ensures mac in gs[k].table && gs[k].table[mac] < |gs[k].sessions|
    ensures gs[k + 1].loop == Removing(mac) <==> gs[k].sessions[gs[k].table[mac]].state == GTP_CREATE_PENDING
    ensures gs[k + 1] == gs[k].(loop := gs[k + 1].loop)
  {
    RunKeepsInv(gs, steps, max, threads, k, ALL);
  }

  /**
   In every run: a session that is in the table and CONNECTED leaves it only through a removal begun for its station by
   a Delete Bearer Request, by disconnect_ue or by an abort; never through its timer.
   */
  lemma ConnectedLeavesOnlyBy(gs: seq<Gateway>, steps: seq<Step>, max: nat, threads: nat, k: nat, mac: string)
      returns (j: nat)
    requires GatewayRun(gs, steps, max, threads) && k < |steps| && mac in gs[k].table
    requires gs[k].table[mac] < |gs[k].sessions| && gs[k].sessions[gs[k].table[mac]].state == CONNECTED
    requires mac in gs[k + 1].table ==> gs[k + 1].table[mac] != gs[k].table[mac]
    ensures j < k
    ensures || (LoopBegins(gs[j], steps[j], mac) && (steps[j] == ByLoop(Stop(mac)) || steps[j] == ByLoop(Drop)))
            || (steps[j].ByDispatch? && DispatchBegins(gs[j], steps[j], steps[j].d, mac))
  {
    RunKeepsInv(gs, steps, max, threads, k, ALL);
    EntryGoesOnlyBy(gs[k], steps[k], mac);
    if steps[k] == ByLoop(Remove) {
      j := LoopHasBegun(gs, steps, max, threads, k, mac);
      if steps[j] == ByLoop(Timeout(mac)) {
        TimerRemovesExactlyWhen(gs, steps, max, threads, j, mac);
        StaysUnconnected(gs, steps, max, threads, j + 1, k, mac, gs[j].table[mac]);
        assert false;
      }
    } else {
      j := DispatchHasBegun(gs, steps, max, threads, k, steps[k].d, mac);
    }
  }
}
