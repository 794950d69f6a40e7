/**
 Which DEAs make a connection stand for a success of the AAA server. A missing Result-Code and UNABLE_TO_DELIVER
 are taken for 2001, so a session can be CONNECTED that no server ever accepted; it is proved that these two codes
 are the only way, for every run of the gateway.
 */
module TwagSuccess {

  import opened Lists
  import opened Twag
  import opened TwagInvariants

  /** The one code that says success. */
  const SUCCESS: Option<nat> := Some(2001)

  /** A run of the gateway to which the DEAs bring these codes only. */
  ghost predicate RunWith(gs: seq<Gateway>, steps: seq<Step>, max: nat, threads: nat, codes: Codes) {
    && GatewayRun(gs, steps, max, threads)
    && forall n :: 0 <= n < |steps| ==> Brings(steps[n], codes)
  }

  /** In no run with these codes is a session CONNECTED without a DEA of code 2001. */
  ghost predicate OnlyAfterSuccess(codes: Codes) {
    forall gs: seq<Gateway>, steps: seq<Step>, max: nat, threads: nat, k: nat, i: nat
      | && RunWith(gs, steps, max, threads, codes) && k < |gs|
        && i < |gs[k].sessions| && gs[k].sessions[i].state == CONNECTED
      :: Judged(SUCCESS, AUTH_PENDING) in gs[k].sessions[i].deeds
  }

  lemma GrantedBySuccess(h: seq<Deed>, teid: Teid, ip: Address, codes: Codes)
    requires Granted(h, teid, ip, codes) && None !in codes && Some(3002) !in codes
    ensures Judged(SUCCESS, AUTH_PENDING) in h
  {
  }

  lemma SuccessIsNeeded(codes: Codes)
    requires None !in codes && Some(3002) !in codes
    ensures OnlyAfterSuccess(codes)
  {
    forall gs: seq<Gateway>, steps: seq<Step>, max: nat, threads: nat, k: nat, i: nat
      | && RunWith(gs, steps, max, threads, codes) && k < |gs|
        && i < |gs[k].sessions| && gs[k].sessions[i].state == CONNECTED
      ensures Judged(SUCCESS, AUTH_PENDING) in gs[k].sessions[i].deeds
    {
      ConnectedMeansGranted(gs, steps, max, threads, k, i, codes);
      var s := gs[k].sessions[i];
      GrantedBySuccess(s.deeds, s.teidC, s.ueIp, codes);
    }
  }

  // ---- A run to CONNECTED ----

  const MAC := "02-00-00-00-00-01"

  /** A gateway with room for one session, and that session. */
  ghost function With(state: SessionState, ip: Address, deeds: seq<Deed>, loop: Loop, d: Dispatch): Gateway {
    Gateway(1, [Session(MAC, state, 1, 2, ip, deeds)], map[MAC := 0], 3, 1, 0, 0, loop, [d], [])
  }

  ghost function Steps(avp: Option<nat>, ip: Address): seq<Step> {
    [ByLoop(Radius(MAC)), ByLoop(Admit), ByLoop(Create(0)), ByLoop(SendDer(true)), ByLoop(MarkAuth),
     ByDispatch(0, Dea(MAC, avp)), ByDispatch(0, CheckAuth), ByDispatch(0, Request(true)),
     ByLoop(Response(Some(0), 1, ip)), ByLoop(CheckPending), ByLoop(Install), ByLoop(Connect(true))]
  }

  ghost function States(avp: Option<nat>, ip: Address): seq<Gateway> {
    var ds := [DerSent, Judged(avp, AUTH_PENDING)];
    [Initial(1, 1),
     Initial(1, 1).(loop := Admitting(MAC)),
     Initial(1, 1).(loop := Creating(MAC)),
     With(INIT, 0, [], Authenticating(0), Waiting),
     With(INIT, 0, [DerSent], MarkingAuth(0), Waiting),
     With(AUTH_PENDING, 0, [DerSent], Idle, Waiting),
     With(AUTH_PENDING, 0, [DerSent], Idle, Checking(0, avp)),
     With(AUTH_PENDING, 0, ds, Idle, Requesting(0)),
     With(GTP_CREATE_PENDING, 0, ds, Idle, Waiting),
     With(GTP_CREATE_PENDING, 0, ds, Responding(0, 1, ip), Waiting),
     With(GTP_CREATE_PENDING, 0, ds, Installing(0, 1, ip), Waiting),
     With(GTP_CREATE_PENDING, ip, ds + [Answered(1, ip)], Connecting(0), Waiting),
     With(CONNECTED, ip, ds + [Answered(1, ip)], Idle, Waiting)]
  }

  /** From one state of the run to the next. */
  ghost predicate Leads(g: Gateway, s: Step, g': Gateway) {
    Sane(g) ==> Enabled(g, s) && g' == After(g, s)
  }

  lemma Admits(avp: Option<nat>, ip: Address, n: nat)
    requires n < 3
    ensures Leads(States(avp, ip)[n], Steps(avp, ip)[n], States(avp, ip)[n + 1])
  {
  }

  lemma SendsDer(avp: Option<nat>, ip: Address, n: nat)
    requires 3 <= n < 5
    ensures Leads(States(avp, ip)[n], Steps(avp, ip)[n], States(avp, ip)[n + 1])
  {
    var none: seq<Deed> := [];
    assert none + [DerSent] == [DerSent];
  }

  /** The dispatch thread, on one session. */
  lemma Dispatched(state: SessionState, deeds: seq<Deed>, d: Dispatch, s: DispatchStep)
    requires SaneDispatch(d, 1) && DispatchEnabled(d, s) && !s.Erase?
    ensures var g := With(state, 0, deeds, Idle, d);
            && Sane(g) && Enabled(g, ByDispatch(0, s))
            && After(g, ByDispatch(0, s)) == EffectOf(g, d, s).(dispatch := [NextOf(g, d, s)])
  {
  }

  lemma DeaComes(avp: Option<nat>)
    ensures Leads(With(AUTH_PENDING, 0, [DerSent], Idle, Waiting), ByDispatch(0, Dea(MAC, avp)),
                  With(AUTH_PENDING, 0, [DerSent], Idle, Checking(0, avp)))
  {
  }

  lemma DeaIsAccepted(avp: Option<nat>)
    requires ResultCode(avp) == 2001
    ensures Leads(With(AUTH_PENDING, 0, [DerSent], Idle, Checking(0, avp)), ByDispatch(0, CheckAuth),
                  With(AUTH_PENDING, 0, [DerSent, Judged(avp, AUTH_PENDING)], Idle, Requesting(0)))
  {
    Dispatched(AUTH_PENDING, [DerSent], Checking(0, avp), CheckAuth);
    assert [DerSent] + [Judged(avp, AUTH_PENDING)] == [DerSent, Judged(avp, AUTH_PENDING)];
  }

  lemma SessionIsRequested(deeds: seq<Deed>)
    ensures Leads(With(AUTH_PENDING, 0, deeds, Idle, Requesting(0)), ByDispatch(0, Request(true)),
                  With(GTP_CREATE_PENDING, 0, deeds, Idle, Waiting))
  {
  }

  lemma Authenticates(avp: Option<nat>, ip: Address, n: nat)
    requires 5 <= n < 8 && ResultCode(avp) == 2001
    ensures Leads(States(avp, ip)[n], Steps(avp, ip)[n], States(avp, ip)[n + 1])
  {
    if n == 5 {
      DeaComes(avp);
    } else if n == 6 {
      DeaIsAccepted(avp);
    } else {
      SessionIsRequested([DerSent, Judged(avp, AUTH_PENDING)]);
    }
  }

  lemma Connects(avp: Option<nat>, ip: Address, n: nat)
    requires 8 <= n < 12
    ensures Leads(States(avp, ip)[n], Steps(avp, ip)[n], States(avp, ip)[n + 1])
  {
  }

  lemma IsARun(avp: Option<nat>, ip: Address)
    requires ResultCode(avp) == 2001
    ensures GatewayRun(States(avp, ip), Steps(avp, ip), 1, 1)
  {
    var gs, steps := States(avp, ip), Steps(avp, ip);
    forall n | 0 <= n < |steps| ensures Leads(gs[n], steps[n], gs[n + 1]) {
      if n < 3 {
        Admits(avp, ip, n);
      } else if n < 5 {
        SendsDer(avp, ip, n);
      } else if n < 8 {
        Authenticates(avp, ip, n);
      } else {
        Connects(avp, ip, n);
      }
    }
    assert forall i :: 0 <= i < |steps| && Sane(gs[i]) ==>
      Enabled(gs[i], steps[i]) && gs[i + 1] == After(gs[i], steps[i]) by {
      forall i | 0 <= i < |steps| && Sane(gs[i])
        ensures Enabled(gs[i], steps[i]) && gs[i + 1] == After(gs[i], steps[i])
      {
        assert Leads(gs[i], steps[i], gs[i + 1]);
      }
    }
  }

  /** A session ends CONNECTED although the only DEA ever looked at had this other code. */
  lemma ConnectedWithoutSuccess(avp: Option<nat>, ip: Address) returns (gs: seq<Gateway>, steps: seq<Step>)
    requires avp == None || avp == Some(3002)
    ensures RunWith(gs, steps, 1, 1, iset{avp})
    ensures gs[|steps|].table == map[MAC := 0] && |gs[|steps|].sessions| == 1
    ensures var s := gs[|steps|].sessions[0];
            && s.state == CONNECTED && s.ueIp == ip
            && s.deeds == [DerSent, Judged(avp, AUTH_PENDING), Answered(s.teidC, ip)]
  {
    gs, steps := States(avp, ip), Steps(avp, ip);
    IsARun(avp, ip);
  }

  /** A connection means a DEA of code 2001, in every run, exactly if no DEA lacks its code or brings 3002. */
  lemma ConnectedMeansSuccessExactlyWhen(codes: Codes)
    ensures OnlyAfterSuccess(codes) <==> None !in codes && Some(3002) !in codes
  {
    if None !in codes && Some(3002) !in codes {
      SuccessIsNeeded(codes);
    } else {
      var avp := if None in codes then None else Some(3002);
      var gs, steps := ConnectedWithoutSuccess(avp, 0);
      assert RunWith(gs, steps, 1, 1, codes) by {
        forall n | 0 <= n < |steps| ensures Brings(steps[n], codes) {
          assert Brings(steps[n], iset{avp});
        }
      }
      assert gs[|steps|].sessions[0].state == CONNECTED;
      assert Judged(SUCCESS, AUTH_PENDING) !in gs[|steps|].sessions[0].deeds;
    }
  }
}
