/**
 The objects of the gateway, as one thread sees them: the session record, the session manager and the handlers of
 the core. Sending a message, setting up a tunnel and the like are outcomes given to the handlers.
 */
module TwagObjects {

  import opened Lists
  import opened Twag

  class UeSession {
    const mac: string
    var state: SessionState
    var teidC: Teid
    var teidU: Teid
    var ueIp: Address
    var apn: string
    var pdnType: nat

    constructor (mac: string, ip: Address)
      ensures this.mac == mac && state == INIT && teidC == 0 && teidU == 0 && ueIp == ip && apn == "" && pdnType == 1
    {
      this.mac, state, teidC, teidU, ueIp, apn, pdnType := mac, INIT, 0, 0, ip, "", 1;
    }
  }

  class SessionManager {
    var sessions: map<string, UeSession>
    var nextTeid: Teid
    var connections: nat
    var disconnections: nat
    var rejected: nat

    /** Every connection is counted once and disconnected at most once. */
    ghost predicate Balanced()
      reads this
    {
      connections == disconnections + |sessions|
    }

    constructor ()
      ensures sessions == map[] && nextTeid == 1 && rejected == 0 && connections == disconnections == 0 && Balanced()
    {
      sessions, nextTeid, connections, disconnections, rejected := map[], 1, 0, 0, 0;
    }

    /** create_session; `ip` is what the uninitialised field happens to hold. */
    method CreateSession(mac: string, ip: Address) returns (s: UeSession)
      modifies this
      ensures fresh(s) && s.mac == mac && s.state == INIT && s.ueIp == ip
      ensures s.teidC == old(nextTeid) && s.teidU == Plus(old(nextTeid), 1) && nextTeid == Plus(old(nextTeid), 2)
      ensures sessions == old(sessions)[mac := s] && connections == old(connections) + 1
      ensures disconnections == old(disconnections) && rejected == old(rejected)
      ensures old(Balanced()) && mac !in old(sessions) ==> Balanced()
    {
      s := new UeSession(mac, ip);
      s.teidC := nextTeid;
      nextTeid := Plus(nextTeid, 1);
      s.teidU := nextTeid;
      nextTeid := Plus(nextTeid, 1);
      TwoSteps(old(nextTeid));
      sessions := sessions[mac := s];
      connections := connections + 1;
    }

    method GetSession(mac: string) returns (s: UeSession?)
      ensures if mac in sessions then s == sessions[mac] else s == null
    {
      s := if mac in sessions then sessions[mac] else null;
    }

    /** get_session_by_teid_c: the table is walked in no particular order. */
    method GetSessionByTeidC(teid: Teid) returns (s: UeSession?)
      ensures s != null ==> s.teidC == teid && exists mac :: mac in sessions && sessions[mac] == s
      ensures s == null ==> forall mac :: mac in sessions ==> sessions[mac].teidC != teid
    {
      var left := sessions.Keys;
      while left != {}
        invariant left <= sessions.Keys
        invariant forall mac :: mac in sessions && mac !in left ==> sessions[mac].teidC != teid
        decreases left
      {
        var mac :| mac in left;
        if sessions[mac].teidC == teid {
          return sessions[mac];
        }
        left := left - {mac};
      }
      s := null;
    }

    method RemoveSession(mac: string)
      modifies this
      ensures sessions == old(sessions) - {mac}
      ensures disconnections == old(disconnections) + if mac in old(sessions) then 1 else 0
      ensures connections == old(connections) && rejected == old(rejected) && nextTeid == old(nextTeid)
      ensures old(Balanced()) ==> Balanced()
    {
      if mac in sessions {
        ghost var before := sessions;
        sessions := sessions - {mac};
        assert sessions.Keys == before.Keys - {mac};
        assert |sessions.Keys| == |sessions| && |before.Keys| == |before|;
        disconnections := disconnections + 1;
      } else {
        assert sessions - {mac} == sessions;
      }
    }
  }

  lemma TwoSteps(t: Teid)
    ensures Plus(Plus(t, 1), 1) == Plus(t, 2)
  {
  }

  // The codes of RADIUS (section 3 of RFC 2865).
  const ACCESS_ACCEPT := 2
  const ACCESS_REJECT := 3
  const ACCESS_CHALLENGE := 11

  class TwagCore {
    const max: nat
    const defaultApn: string
    const manager: SessionManager
    var responses: seq<nat>                  // the RADIUS responses sent
    var offers: seq<(string, Address)>       // the DHCP offers and acknowledgements sent

    constructor (max: nat, defaultApn: string)
      ensures this.max == max && this.defaultApn == defaultApn && fresh(manager) && manager.sessions == map[]
      ensures responses == [] && offers == [] && manager.Balanced()
    {
      this.max, this.defaultApn, responses, offers := max, defaultApn, [], [];
      manager := new SessionManager();
    }

    /** Refused by admission control. */
    ghost predicate Refused(mac: string)
      reads this, manager
    {
      mac !in manager.sessions && |manager.sessions| >= max
    }

    /** The session of a RADIUS request: the one there is, a new one, or none if there are too many. */
    method Admit(mac: string, ip: Address) returns (s: UeSession?)
      requires manager.Balanced() && |manager.sessions| <= max
      modifies `responses, manager
      ensures manager.Balanced() && |manager.sessions| <= max
      ensures s == null <==> old(Refused(mac))
      ensures manager.rejected == old(manager.rejected) + if s == null then 1 else 0
      ensures responses == old(responses) + if s == null then [3] else []
      ensures s == null ==> manager.sessions == old(manager.sessions)
      ensures s != null ==> mac in manager.sessions && manager.sessions[mac] == s
      ensures s != null ==> manager.sessions == old(manager.sessions)[mac := s]
      ensures if mac in old(manager.sessions) then s == old(manager.sessions[mac])
              else s == null || (fresh(s) && s.state == INIT && s.mac == mac)
    {
      s := manager.GetSession(mac);
      if s == null {
        if |manager.sessions| >= max {
          manager.rejected := manager.rejected + 1;
          responses := responses + [ACCESS_REJECT];
          return;
        }
        s := manager.CreateSession(mac, ip);
        assert manager.sessions.Keys == old(manager.sessions).Keys + {mac};
      } else {
        assert manager.sessions == manager.sessions[mac := s];
      }
    }

    /** handle_radius_access_request; `der` tells if the DER could be sent. */
    method HandleRadiusAccessRequest(mac: string, ip: Address, der: bool)
      requires manager.Balanced() && |manager.sessions| <= max
      modifies `responses, manager, if mac in manager.sessions then {manager.sessions[mac]} else {}
      ensures manager.Balanced() && |manager.sessions| <= max
      ensures old(Refused(mac)) ==> manager.sessions == old(manager.sessions)
      ensures responses == old(responses) + if old(Refused(mac)) then [3] else []
      ensures manager.rejected == old(manager.rejected) + if old(Refused(mac)) then 1 else 0
      ensures !old(Refused(mac)) ==>
                && mac in manager.sessions && manager.sessions == old(manager.sessions)[mac := manager.sessions[mac]]
                && (mac in old(manager.sessions) ==> manager.sessions[mac] == old(manager.sessions[mac]))
                && manager.sessions[mac].state ==
                   (if der then AUTH_PENDING
                    else if mac in old(manager.sessions) then old(manager.sessions[mac].state) else INIT)
    {
      var s := Admit(mac, ip);
      if s != null && der {
        s.state := AUTH_PENDING;
      }
    }

    /** on_dea_received; `request` tells if the Create Session Request could be sent. */
    method OnDeaReceived(mac: string, avp: Option<nat>, apn: string, pdnType: nat, request: bool)
      modifies `responses, if mac in manager.sessions then {manager.sessions[mac]} else {}
      ensures mac !in manager.sessions ==> responses == old(responses)
      ensures mac in manager.sessions ==>
                var s, code := manager.sessions[mac], if avp.None? || avp.value == 3002 then 2001 else avp.value;
                && s.teidC == old(s.teidC) && s.ueIp == old(s.ueIp)
                && (old(s.state) != AUTH_PENDING ==>
                      responses == old(responses) && s.apn == old(s.apn) && s.pdnType == old(s.pdnType))
                && (old(s.state) == AUTH_PENDING ==>
                      && responses == old(responses)
                           + [if code == 1001 then 11 else if code == 2001 then 2 else 3]
                      && s.pdnType == (if pdnType == 0 then old(s.pdnType) else pdnType)
                      && s.apn == (if apn != "" then apn else if old(s.apn) == "" then defaultApn else old(s.apn)))
                && s.state == if old(s.state) == AUTH_PENDING && code == 2001 && request then GTP_CREATE_PENDING
                              else old(s.state)
    {
      var s := manager.GetSession(mac);
      if s == null || s.state != AUTH_PENDING {
        return;
      }
      if apn != "" {
        s.apn := apn;
      } else if s.apn == "" {
        s.apn := defaultApn;
      }
      if pdnType != 0 {
        s.pdnType := pdnType;
      }
      var code := ResultCode(avp);
      if code == 1001 {
        responses := responses + [ACCESS_CHALLENGE];
        return;
      }
      if code == 2001 {
        responses := responses + [ACCESS_ACCEPT];
        if request {
          s.state := GTP_CREATE_PENDING;
        }
      } else {
        responses := responses + [ACCESS_REJECT];
      }
    }

    /** on_gtp_create_response_received; `tunnel` tells if the kernel tunnel could be set up. */
    method OnGtpCreateResponse(teid: Teid, success: bool, ip: Address, tunnel: bool) returns (found: UeSession?)
      modifies manager.sessions.Values
      ensures found == null <==> forall mac :: mac in manager.sessions ==> old(manager.sessions[mac].teidC) != teid
      ensures forall s :: s in manager.sessions.Values && s != found ==> unchanged(s)
      ensures found != null ==>
                && found in manager.sessions.Values && old(found.teidC) == found.teidC == teid
                && var taken := success && old(found.state) == GTP_CREATE_PENDING;
                   && found.ueIp == (if taken then ip else old(found.ueIp))
                   && found.state == (if taken && tunnel then CONNECTED else old(found.state))
    {
      found := manager.GetSessionByTeidC(teid);
      if found == null || !success || found.state != GTP_CREATE_PENDING {
        return;
      }
      found.ueIp := ip;
      if tunnel {
        found.state := CONNECTED;
      }
    }

    /** handle_dhcp_discover and handle_dhcp_request: only a connected session with an address gets one. */
    method HandleDhcp(mac: string)
      modifies `offers
      ensures offers == old(offers)
                + if mac in manager.sessions && manager.sessions[mac].state == CONNECTED
                     && manager.sessions[mac].ueIp != 0
                  then [(mac, manager.sessions[mac].ueIp)] else []
    {
      var s := manager.GetSession(mac);
      if s != null && s.state == CONNECTED && s.ueIp != 0 {
        offers := offers + [(mac, s.ueIp)];
      }
    }

    /** on_aaa_abort_session_received. */
    method OnAbortSession(mac: string)
      requires manager.Balanced()
      modifies manager, if mac in manager.sessions then {manager.sessions[mac]} else {}
      ensures manager.Balanced() && manager.sessions == old(manager.sessions) - {mac}
      ensures mac in old(manager.sessions) ==> old(manager.sessions)[mac].state == DISCONNECTING
    {
      var s := manager.GetSession(mac);
      if s == null {
        assert manager.sessions - {mac} == manager.sessions;
        return;
      }
      s.state := DISCONNECTING;
      manager.RemoveSession(mac);
    }

    /** disconnect_ue: the state of the session is left as it is. */
    method DisconnectUe(mac: string)
      requires manager.Balanced()
      modifies manager
      ensures manager.Balanced() && manager.sessions == old(manager.sessions) - {mac}
    {
      var s := manager.GetSession(mac);
      if s == null {
        assert manager.sessions - {mac} == manager.sessions;
        return;
      }
      manager.RemoveSession(mac);
    }

    /** The timer set with the Create Session Request: a station that still waits is rejected and disconnected. */
    method OnCreateSessionTimeout(mac: string)
      requires manager.Balanced()
      modifies `responses, manager
      ensures manager.Balanced()
      ensures var waits := mac in old(manager.sessions) && old(manager.sessions[mac].state) == GTP_CREATE_PENDING;
              && responses == old(responses) + (if waits then [3] else [])
              && manager.sessions == if waits then old(manager.sessions) - {mac} else old(manager.sessions)
    {
      var s := manager.GetSession(mac);
      if s != null && s.state == GTP_CREATE_PENDING {
        responses := responses + [ACCESS_REJECT];
        DisconnectUe(mac);
      }
    }

    /** on_gtp_delete_bearer_request_received. */
    method OnDeleteBearer(teid: Teid) returns (found: UeSession?)
      requires manager.Balanced()
      modifies manager, manager.sessions.Values
      ensures manager.Balanced()
      ensures found == null <==> forall mac :: mac in old(manager.sessions) ==> old(manager.sessions[mac].teidC) != teid
      ensures found == null ==> manager.sessions == old(manager.sessions)
      ensures found != null ==> && found in old(manager.sessions).Values && old(found.teidC) == teid
                                && found.state == DISCONNECTING
                                && manager.sessions == old(manager.sessions) - {found.mac}
      ensures forall s :: s in old(manager.sessions).Values && s != found ==> unchanged(s)
    {
      found := manager.GetSessionByTeidC(teid);
      if found == null {
        return;
      }
      found.state := DISCONNECTING;
      manager.RemoveSession(found.mac);
    }
  }
}
