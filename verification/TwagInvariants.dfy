/** What every interleaving of the threads of the gateway keeps. */
module TwagInvariants {

  import opened Arithmetic
  import opened Lists
  import opened Twag

  // ---- Admission ----

  ghost predicate TableInv(g: Gateway) {
    && |g.table| <= g.max && g.connections == g.disconnections + |g.table|
    && (g.loop.Admitting? ==> g.loop.mac !in g.table)
    && (g.loop.Creating? ==> g.loop.mac !in g.table && |g.table| < g.max)
  }

  lemma RemovedKeeps(g: Gateway, mac: string)
    requires Sane(g) && TableInv(g)
    ensures Sane(Removed(g, mac)) && TableInv(Removed(g, mac)) && Removed(g, mac).max == g.max
  {
  }

  lemma CreatedKeeps(g: Gateway, ip: Address)
    requires Sane(g) && TableInv(g) && g.loop.Creating?
    ensures var r := Looped(g, Create(ip)); Sane(r) && TableInv(r)
  {
  }

  lemma LoopKeepsTable(g: Gateway, s: LoopStep)
    requires Sane(g) && TableInv(g) && LoopEnabled(g, s)
    ensures Sane(Looped(g, s)) && TableInv(Looped(g, s))
  {
    match s
    case Create(ip) => CreatedKeeps(g, ip);
    case Remove => RemovedKeeps(g, g.loop.mac);
    case _ =>
  }

  lemma EffectKeepsTable(g: Gateway, d: Dispatch, s: DispatchStep)
    requires Sane(g) && TableInv(g) && SaneDispatch(d, |g.sessions|) && DispatchEnabled(d, s)
    ensures var r := EffectOf(g, d, s);
            Sane(r) && TableInv(r) && r.dispatch == g.dispatch && |r.sessions| == |g.sessions|
  {
  }

  lemma NextIsSane(g: Gateway, d: Dispatch, s: DispatchStep)
    requires Sane(g) && SaneDispatch(d, |g.sessions|) && DispatchEnabled(d, s)
    ensures SaneDispatch(NextOf(g, d, s), |g.sessions|)
  {
  }

  lemma DispatchKeepsTable(g: Gateway, d: nat, s: DispatchStep)
    requires Sane(g) && TableInv(g) && Enabled(g, ByDispatch(d, s))
    ensures Sane(After(g, ByDispatch(d, s))) && TableInv(After(g, ByDispatch(d, s)))
  {
    assert SaneDispatch(g.dispatch[d], |g.sessions|);
    EffectKeepsTable(g, g.dispatch[d], s);
    NextIsSane(g, g.dispatch[d], s);
  }

  lemma StepKeepsTable(g: Gateway, s: Step)
    requires Sane(g) && TableInv(g) && Enabled(g, s)
    ensures Sane(After(g, s)) && TableInv(After(g, s))
  {
    match s
    case ByLoop(l) => LoopKeepsTable(g, l);
    case ByDispatch(d, t) => DispatchKeepsTable(g, d, t);
  }

  // ---- Authentication before connection ----

  /** What the Result-Code of a DEA can be: absent, or a number. */
  type Codes = iset<Option<nat>>

  /** A DEA with one of these codes, looked at while the session was AUTH_PENDING, and taken for a success. */
  ghost predicate Accepted(d: Deed, codes: Codes) {
    d.Judged? && d.found == AUTH_PENDING && d.avp in codes && d.avp in iset{None, Some(2001), Some(3002)}
  }

  /** A DER, then a DEA accepted. */
  ghost predicate Ready(h: seq<Deed>, codes: Codes) {
    exists j :: 0 <= j < |h| && Accepted(h[j], codes) && DerSent in h[..j]
  }

  /** A DER, then a DEA accepted, then a Create Session Response for this TEID, with this address. */
  ghost predicate Granted(h: seq<Deed>, teid: Teid, ip: Address, codes: Codes) {
    exists k :: 0 <= k < |h| && h[k] == Answered(teid, ip) && Ready(h[..k], codes)
  }

  /** A dispatch thread goes on with a DEA exactly if the session waits for it and the code is one of three. */
  lemma AcceptedExactlyWhen(g: Gateway, d: Dispatch, codes: Codes)
    requires Sane(g) && SaneDispatch(d, |g.sessions|) && d.Checking? && d.avp in codes
    ensures NextOf(g, d, CheckAuth) == Requesting(d.s) <==> Accepted(Judged(d.avp, g.sessions[d.s].state), codes)
  {
  }

  lemma ReadyLater(h: seq<Deed>, t: seq<Deed>, codes: Codes)
    requires h <= t && Ready(h, codes)
    ensures Ready(t, codes)
  {
  }

  lemma GrantedLater(h: seq<Deed>, t: seq<Deed>, teid: Teid, ip: Address, codes: Codes)
    requires h <= t && Granted(h, teid, ip, codes)
    ensures Granted(t, teid, ip, codes)
  {
  }

  lemma AcceptedAfterDer(h: seq<Deed>, d: Deed, codes: Codes)
    requires DerSent in h && Accepted(d, codes)
    ensures Ready(h + [d], codes)
  {
    var t := h + [d];
    assert t[|h|] == d && t[..|h|] == h;
  }

  lemma AnsweredAfterReady(h: seq<Deed>, teid: Teid, ip: Address, codes: Codes)
    requires Ready(h, codes)
    ensures Granted(h + [Answered(teid, ip)], teid, ip, codes)
  {
    var t := h + [Answered(teid, ip)];
    assert t[|h|] == Answered(teid, ip) && t[..|h|] == h;
  }

  /** The state of a session is backed by what happened to it. */
  ghost predicate Lawful(s: Session, codes: Codes) {
    match s.state
    case INIT => true
    case AUTH_PENDING => DerSent in s.deeds
    case GTP_CREATE_PENDING => Ready(s.deeds, codes)
    case CONNECTED => Granted(s.deeds, s.teidC, s.ueIp, codes)
    case DISCONNECTING => true
  }

  /** So is what a thread is about to do. */
  ghost predicate LoopLaw(ss: seq<Session>, l: Loop, codes: Codes) {
    match l
    case MarkingAuth(s) => s < |ss| && DerSent in ss[s].deeds
    case Responding(s, teid, _) => s < |ss| && ss[s].teidC == teid
    case Installing(s, teid, _) => s < |ss| && ss[s].teidC == teid && Ready(ss[s].deeds, codes)
    case Connecting(s) => s < |ss| && Granted(ss[s].deeds, ss[s].teidC, ss[s].ueIp, codes)
    case _ => true
  }

  ghost predicate DispatchLaw(ss: seq<Session>, d: Dispatch, codes: Codes) {
    && (d.Checking? ==> d.avp in codes)
    && (d.Requesting? ==> d.s < |ss| && Ready(ss[d.s].deeds, codes))
  }

  ghost predicate OfferLaw(ss: seq<Session>, o: (nat, Address), codes: Codes) {
    o.0 < |ss| && o.1 != 0 && Granted(ss[o.0].deeds, ss[o.0].teidC, o.1, codes)
  }

  ghost predicate DeedInv(g: Gateway, codes: Codes) {
    && (forall i :: 0 <= i < |g.sessions| ==> Lawful(g.sessions[i], codes))
    && LoopLaw(g.sessions, g.loop, codes)
    && (forall d :: 0 <= d < |g.dispatch| ==> DispatchLaw(g.sessions, g.dispatch[d], codes))
    && (forall k :: 0 <= k < |g.offers| ==> OfferLaw(g.sessions, g.offers[k], codes))
  }

  /** Sessions keep their TEID and only gain deeds. */
  ghost predicate Grown(ss: seq<Session>, tt: seq<Session>) {
    && |ss| <= |tt|
    && forall i :: 0 <= i < |ss| ==> ss[i].teidC == tt[i].teidC && ss[i].deeds <= tt[i].deeds
  }

  lemma DispatchLawLater(ss: seq<Session>, tt: seq<Session>, d: Dispatch, codes: Codes)
    requires Grown(ss, tt) && DispatchLaw(ss, d, codes)
    ensures DispatchLaw(tt, d, codes)
  {
  }

  lemma OfferLawLater(ss: seq<Session>, tt: seq<Session>, o: (nat, Address), codes: Codes)
    requires Grown(ss, tt) && OfferLaw(ss, o, codes)
    ensures OfferLaw(tt, o, codes)
  {
  }

  lemma LoopLawLater(ss: seq<Session>, tt: seq<Session>, l: Loop, codes: Codes)
    requires Grown(ss, tt) && LoopLaw(ss, l, codes) && (l.Connecting? ==> l.s < |ss| && tt[l.s].ueIp == ss[l.s].ueIp)
    ensures LoopLaw(tt, l, codes)
  {
  }

  /** One session changes, lawfully: the laws of the dispatch threads and of the offers stay. */
  lemma OneChange(g: Gateway, i: nat, s: Session, codes: Codes)
    requires DeedInv(g, codes) && i < |g.sessions| && Lawful(s, codes)
    requires s.teidC == g.sessions[i].teidC && g.sessions[i].deeds <= s.deeds
    ensures var tt := g.sessions[i := s];
            && Grown(g.sessions, tt)
            && (forall j :: 0 <= j < |tt| ==> Lawful(tt[j], codes))
            && (forall d :: 0 <= d < |g.dispatch| ==> DispatchLaw(tt, g.dispatch[d], codes))
            && (forall k :: 0 <= k < |g.offers| ==> OfferLaw(tt, g.offers[k], codes))
  {
  }

  lemma NotedLawful(s: Session, d: Deed, codes: Codes)
    requires Lawful(s, codes)
    ensures Lawful(s.(deeds := s.deeds + [d]), codes)
  {
    var t := s.(deeds := s.deeds + [d]);
    assert s.deeds <= t.deeds;
    match s.state
    case AUTH_PENDING => assert DerSent in t.deeds;
    case GTP_CREATE_PENDING => ReadyLater(s.deeds, t.deeds, codes);
    case CONNECTED => GrantedLater(s.deeds, t.deeds, s.teidC, s.ueIp, codes);
    case _ =>
  }

  /** The response replaces the address; a connected session stays lawful, with the new one. */
  lemma InstalledLawful(s: Session, ip: Address, codes: Codes)
    requires Lawful(s, codes) && Ready(s.deeds, codes)
    ensures var t := s.(ueIp := ip, deeds := s.deeds + [Answered(s.teidC, ip)]);
            Lawful(t, codes) && Granted(t.deeds, t.teidC, t.ueIp, codes)
  {
    var t := s.(ueIp := ip, deeds := s.deeds + [Answered(s.teidC, ip)]);
    AnsweredAfterReady(s.deeds, s.teidC, ip, codes);
    assert s.deeds <= t.deeds;
    ReadyLater(s.deeds, t.deeds, codes);
    if s.state == AUTH_PENDING {
      assert DerSent in t.deeds;
    }
  }

  lemma CreateKeepsDeeds(g: Gateway, ip: Address, codes: Codes)
    requires Sane(g) && DeedInv(g, codes) && g.loop.Creating?
    ensures DeedInv(Looped(g, Create(ip)), codes)
  {
    var g' := Looped(g, Create(ip));
    assert Grown(g.sessions, g'.sessions);
    forall d | 0 <= d < |g.dispatch| ensures DispatchLaw(g'.sessions, g.dispatch[d], codes) {
      DispatchLawLater(g.sessions, g'.sessions, g.dispatch[d], codes);
    }
    forall k | 0 <= k < |g.offers| ensures OfferLaw(g'.sessions, g.offers[k], codes) {
      OfferLawLater(g.sessions, g'.sessions, g.offers[k], codes);
    }
  }

  lemma SendDerKeepsDeeds(g: Gateway, codes: Codes)
    requires Sane(g) && DeedInv(g, codes) && g.loop.Authenticating?
    ensures DeedInv(Looped(g, SendDer(true)), codes)
  {
    var s := g.sessions[g.loop.s];
    NotedLawful(s, DerSent, codes);
    OneChange(g, g.loop.s, s.(deeds := s.deeds + [DerSent]), codes);
  }

  lemma InstallKeepsDeeds(g: Gateway, codes: Codes)
    requires Sane(g) && DeedInv(g, codes) && g.loop.Installing?
    ensures DeedInv(Looped(g, Install), codes)
  {
    var s := g.sessions[g.loop.s];
    InstalledLawful(s, g.loop.ip, codes);
    OneChange(g, g.loop.s, s.(ueIp := g.loop.ip, deeds := s.deeds + [Answered(g.loop.teid, g.loop.ip)]), codes);
  }

  /** A state is set that the deeds of the session back, by the event loop. */
  lemma LoopMarkKeepsDeeds(g: Gateway, st: SessionState, l: Loop, codes: Codes)
    requires DeedInv(g, codes) && SaneLoop(g.loop, |g.sessions|)
    requires g.loop.MarkingAuth? || g.loop.Connecting? || g.loop.Dropping?
    requires Lawful(g.sessions[g.loop.s].(state := st), codes) && (l == Idle || l.Removing?)
    ensures DeedInv(Marked(g, g.loop.s, st).(loop := l), codes)
  {
    OneChange(g, g.loop.s, g.sessions[g.loop.s].(state := st), codes);
  }

  /** No session changes: only the law of the event loop is to be seen to. */
  lemma SameSessionsKeep(g: Gateway, g': Gateway, codes: Codes)
    requires DeedInv(g, codes) && LoopLaw(g.sessions, g'.loop, codes)
    requires g'.sessions == g.sessions && g'.dispatch == g.dispatch && g'.offers == g.offers
    ensures DeedInv(g', codes)
  {
  }

  lemma OfferKeepsDeeds(g: Gateway, codes: Codes)
    requires Sane(g) && DeedInv(g, codes) && g.loop.Offering?
    ensures DeedInv(Looped(g, Offer), codes)
  {
  }

  lemma LoopKeepsDeeds(g: Gateway, s: LoopStep, codes: Codes)
    requires Sane(g) && DeedInv(g, codes) && LoopEnabled(g, s)
    ensures DeedInv(Looped(g, s), codes)
  {
    match s
    case Create(ip) => CreateKeepsDeeds(g, ip, codes);
    case SendDer(ok) =>
      if ok {
        SendDerKeepsDeeds(g, codes);
      } else {
        SameSessionsKeep(g, Looped(g, s), codes);
      }
    case MarkAuth => LoopMarkKeepsDeeds(g, AUTH_PENDING, Idle, codes);
    case CheckPending =>
      assert Lawful(g.sessions[g.loop.s], codes);
      SameSessionsKeep(g, Looped(g, s), codes);
    case Install => InstallKeepsDeeds(g, codes);
    case Connect(ok) =>
      if ok {
        LoopMarkKeepsDeeds(g, CONNECTED, Idle, codes);
      } else {
        SameSessionsKeep(g, Looped(g, s), codes);
      }
    case Offer => OfferKeepsDeeds(g, codes);
    case Drop => LoopMarkKeepsDeeds(g, DISCONNECTING, Removing(g.sessions[g.loop.s].mac), codes);
    case _ => SameSessionsKeep(g, Looped(g, s), codes);
  }

  /** A dispatch thread changes one session, lawfully. */
  lemma DispatchChangeKeeps(g: Gateway, d: nat, i: nat, s: Session, next: Dispatch, codes: Codes)
    requires DeedInv(g, codes) && d < |g.dispatch| && i < |g.sessions| && Lawful(s, codes)
    requires s.teidC == g.sessions[i].teidC && g.sessions[i].deeds <= s.deeds && s.ueIp == g.sessions[i].ueIp
    requires DispatchLaw(g.sessions[i := s], next, codes)
    ensures DeedInv(g.(sessions := g.sessions[i := s], dispatch := g.dispatch[d := next]), codes)
  {
    OneChange(g, i, s, codes);
    LoopLawLater(g.sessions, g.sessions[i := s], g.loop, codes);
  }

  lemma DispatchKeepsDeeds(g: Gateway, d: nat, s: DispatchStep, codes: Codes)
    requires Sane(g) && DeedInv(g, codes) && Enabled(g, ByDispatch(d, s)) && (s.Dea? ==> s.avp in codes)
    ensures DeedInv(After(g, ByDispatch(d, s)), codes)
  {
    var t := g.dispatch[d];
    assert SaneDispatch(t, |g.sessions|) && DispatchLaw(g.sessions, t, codes);
    match s
    case CheckAuth =>
      var x := g.sessions[t.s];
      var judged := Judged(t.avp, x.state);
      assert Lawful(x, codes);
      NotedLawful(x, judged, codes);
      AcceptedExactlyWhen(g, t, codes);
      if NextOf(g, t, s).Requesting? {
        AcceptedAfterDer(x.deeds, judged, codes);
      }
      DispatchChangeKeeps(g, d, t.s, x.(deeds := x.deeds + [judged]), NextOf(g, t, s), codes);
    case Request(ok) =>
      if ok {
        DispatchChangeKeeps(g, d, t.s, g.sessions[t.s].(state := GTP_CREATE_PENDING), Waiting, codes);
      }
    case Abort =>
      DispatchChangeKeeps(g, d, t.s, g.sessions[t.s].(state := DISCONNECTING), Erasing(g.sessions[t.s].mac), codes);
    case _ =>
  }

  /** The DEAs that come have these codes. */
  ghost predicate Brings(s: Step, codes: Codes) {
    s.ByDispatch? && s.s.Dea? ==> s.s.avp in codes
  }

  lemma StepKeepsDeeds(g: Gateway, s: Step, codes: Codes)
    requires Sane(g) && DeedInv(g, codes) && Enabled(g, s) && Brings(s, codes)
    ensures DeedInv(After(g, s), codes)
  {
    match s
    case ByLoop(l) => LoopKeepsDeeds(g, l, codes);
    case ByDispatch(d, t) => DispatchKeepsDeeds(g, d, t, codes);
  }

  // ---- TEIDs ----

  /** The control TEID of the n-th session. */
  ghost function TeidAt(n: nat): Teid {
    if n == 0 then 1 else Plus(TeidAt(n - 1), 2)
  }

  lemma {:induction false} TeidIsModular(n: nat)
    ensures TeidAt(n) == (2 * n + 1) % WORD
  {
    if n == 0 {
      DivModUnique(1, WORD, 0, 1);
    } else {
      TeidIsModular(n - 1);
      ModPlus(2 * (n - 1) + 1, 2, WORD);
    }
  }

  ghost predicate TeidInv(g: Gateway) {
    && g.nextTeid == TeidAt(|g.sessions|)
    && forall i :: 0 <= i < |g.sessions| ==>
         g.sessions[i].teidC == TeidAt(i) && g.sessions[i].teidU == Plus(TeidAt(i), 1)
  }

  /** Nothing but a creation touches a TEID. */
  ghost predicate SameTeids(g: Gateway, g': Gateway) {
    && g'.nextTeid == g.nextTeid && |g'.sessions| == |g.sessions|
    && forall i :: 0 <= i < |g.sessions| ==>
         g'.sessions[i].teidC == g.sessions[i].teidC && g'.sessions[i].teidU == g.sessions[i].teidU
  }

  lemma LoopSameTeids(g: Gateway, s: LoopStep)
    requires Sane(g) && LoopEnabled(g, s) && !s.Create?
    ensures SameTeids(g, Looped(g, s))
  {
  }

  lemma DispatchSameTeids(g: Gateway, d: nat, s: DispatchStep)
    requires Sane(g) && Enabled(g, ByDispatch(d, s))
    ensures SameTeids(g, After(g, ByDispatch(d, s)))
  {
  }

  lemma SameTeidsKeep(g: Gateway, g': Gateway)
    requires TeidInv(g) && SameTeids(g, g')
    ensures TeidInv(g')
  {
  }

  lemma StepKeepsTeids(g: Gateway, s: Step)
    requires Sane(g) && TeidInv(g) && Enabled(g, s)
    ensures TeidInv(After(g, s))
  {
    if s.ByDispatch? {
      DispatchSameTeids(g, s.d, s.s);
      SameTeidsKeep(g, After(g, s));
    } else if !s.l.Create? {
      LoopSameTeids(g, s.l);
      SameTeidsKeep(g, After(g, s));
    }
  }

  lemma AfterOdd(t: Teid, k: int)
    requires t == 2 * k + 1
    ensures t % 2 == 1 && Plus(t, 1) % 2 == 0
  {
  }

  /** Control TEIDs are odd and user TEIDs even, also after the counter has wrapped around. */
  lemma Parity(n: nat)
    ensures TeidAt(n) % 2 == 1 && Plus(TeidAt(n), 1) % 2 == 0
  {
    TeidIsModular(n);
    ModParity(n, HALF);
    AfterOdd(TeidAt(n), n % HALF);
  }

  /** Two sessions share a control TEID exactly when a multiple of 2^31 creations lies between them. */
  lemma TeidsMeet(m: nat, n: nat)
    ensures TeidAt(m) == TeidAt(n) <==> (m - n) % HALF == 0
  {
    TeidIsModular(m);
    TeidIsModular(n);
    ModParity(m, HALF);
    ModParity(n, HALF);
    SameMod(m, n, HALF);
  }

  // ---- Whole runs ----

  /** A run; that its states are sane, so that steps are defined in them, is part of what is proved. */
  ghost predicate GatewayRun(gs: seq<Gateway>, steps: seq<Step>, max: nat, threads: nat) {
    && |gs| == |steps| + 1 && gs[0] == Initial(max, threads)
    && forall i :: 0 <= i < |steps| && Sane(gs[i]) ==>
         Enabled(gs[i], steps[i]) && gs[i + 1] == After(gs[i], steps[i])
  }

  ghost predicate Inv(g: Gateway, max: nat, codes: Codes) {
    Sane(g) && TableInv(g) && DeedInv(g, codes) && TeidInv(g) && g.max == max
  }

  lemma StepKeepsInv(g: Gateway, s: Step, max: nat, codes: Codes)
    requires Inv(g, max, codes) && Enabled(g, s) && Brings(s, codes)
    ensures Inv(After(g, s), max, codes)
  {
    StepKeepsTable(g, s);
    StepKeepsDeeds(g, s, codes);
    StepKeepsTeids(g, s);
  }

  lemma {:induction false} RunKeepsInv(gs: seq<Gateway>, steps: seq<Step>, max: nat, threads: nat, k: nat, codes: Codes)
    requires GatewayRun(gs, steps, max, threads) && k <= |steps|
    requires forall n :: 0 <= n < |steps| ==> Brings(steps[n], codes)
    ensures Inv(gs[k], max, codes)
  {
    if k > 0 {
      RunKeepsInv(gs, steps, max, threads, k - 1, codes);
      StepKeepsInv(gs[k - 1], steps[k - 1], max, codes);
    }
  }

  /** Every code there is. */
  ghost const ALL: Codes := iset avp: Option<nat> | true

  /** How many of the first k steps refused a station for lack of room. */
  ghost function Refusals(gs: seq<Gateway>, steps: seq<Step>, k: nat): nat
    requires k <= |steps| && k <= |gs|
  {
    if k == 0 then 0
    else
      var g := gs[k - 1];
      Refusals(gs, steps, k - 1) + if steps[k - 1] == ByLoop(Admit) && |g.table| >= g.max then 1 else 0
  }

  lemma StepCounts(g: Gateway, s: Step)
    requires Sane(g) && Enabled(g, s)
    ensures var r := After(g, s);
            && r.connections - g.connections == |r.sessions| - |g.sessions|
            && r.rejected == g.rejected + if s == ByLoop(Admit) && |g.table| >= g.max then 1 else 0
  {
    if s.ByDispatch? {
      assert SaneDispatch(g.dispatch[s.d], |g.sessions|);
    }
  }

  /** In every run the counters count: sessions created, sessions removed, and requests refused for lack of room. */
  lemma {:induction false} CountersCount(gs: seq<Gateway>, steps: seq<Step>, max: nat, threads: nat, k: nat)
    requires GatewayRun(gs, steps, max, threads) && k <= |steps|
    ensures gs[k].connections == |gs[k].sessions| && gs[k].disconnections == |gs[k].sessions| - |gs[k].table|
    ensures gs[k].rejected == Refusals(gs, steps, k)
  {
    RunKeepsInv(gs, steps, max, threads, k, ALL);
    if k > 0 {
      CountersCount(gs, steps, max, threads, k - 1);
      RunKeepsInv(gs, steps, max, threads, k - 1, ALL);
      StepCounts(gs[k - 1], steps[k - 1]);
    }
  }

  /** In every run: live sessions never exceed the limit, and connections are disconnections plus live sessions. */
  lemma AdmissionHolds(gs: seq<Gateway>, steps: seq<Step>, max: nat, threads: nat, k: nat)
    requires GatewayRun(gs, steps, max, threads) && k <= |steps|
    ensures |gs[k].table| <= max && gs[k].connections == gs[k].disconnections + |gs[k].table|
  {
    RunKeepsInv(gs, steps, max, threads, k, ALL);
  }

  /**
   In every run, whatever codes the DEAs bring: a session is CONNECTED only if, since its creation, a DER was sent
   for it, then a DEA with one of these codes was looked at while it was AUTH_PENDING, the code being 2001, 3002 or
   none, then a Create Session Response came for its own control TEID.
   */
  lemma ConnectedMeansGranted(gs: seq<Gateway>, steps: seq<Step>, max: nat, threads: nat, k: nat, i: nat, codes: Codes)
    requires GatewayRun(gs, steps, max, threads) && k <= |steps|
    requires forall n :: 0 <= n < |steps| ==> Brings(steps[n], codes)
    requires i < |gs[k].sessions| && gs[k].sessions[i].state == CONNECTED
    ensures var s := gs[k].sessions[i]; Granted(s.deeds, s.teidC, s.ueIp, codes)
  {
    RunKeepsInv(gs, steps, max, threads, k, codes);
    assert Lawful(gs[k].sessions[i], codes);
  }

  /** So DHCP only ever offers an address that such a response gave to the session. */
  lemma OffersAreGranted(gs: seq<Gateway>, steps: seq<Step>, max: nat, threads: nat, k: nat, j: nat, codes: Codes)
    requires GatewayRun(gs, steps, max, threads) && k <= |steps| && j < |gs[k].offers|
    requires forall n :: 0 <= n < |steps| ==> Brings(steps[n], codes)
    ensures var (i, ip) := gs[k].offers[j];
            i < |gs[k].sessions| && ip != 0 && Granted(gs[k].sessions[i].deeds, gs[k].sessions[i].teidC, ip, codes)
  {
    RunKeepsInv(gs, steps, max, threads, k, codes);
    assert OfferLaw(gs[k].sessions, gs[k].offers[j], codes);
  }

  /**
   In every run: TEID 0 matches no session, and a control TEID is that of at most one session among any that
   were created fewer than 2^31 creations apart.
   */
  lemma TeidsAreUnambiguous(gs: seq<Gateway>, steps: seq<Step>, max: nat, threads: nat, k: nat, i: nat, j: nat)
    requires GatewayRun(gs, steps, max, threads) && k <= |steps| && i < |gs[k].sessions| && j < |gs[k].sessions|
    ensures var s, t := gs[k].sessions[i], gs[k].sessions[j];
            && s.teidC % 2 == 1 && s.teidU % 2 == 0 && s.teidC != 0
            && (s.teidC == t.teidC <==> (i - j) % HALF == 0)
            && (i != j && -HALF < i - j < HALF ==> s.teidC != t.teidC)
  {
    RunKeepsInv(gs, steps, max, threads, k, ALL);
    Parity(i);
    TeidsMeet(i, j);
    NotMultiple(i - j, HALF);
  }

  lemma NotMultiple(d: int, h: int)
    requires h > 0
    ensures d != 0 && -h < d < h ==> d % h != 0
  {
  }
}
