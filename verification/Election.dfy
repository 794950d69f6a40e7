/**
 Two peers that connect to each other at the same time (section 5.6.4 of RFC 6733; p_ce.c, p_psm.c): which of
 the two connections each of them keeps.
 */
module Election {

  import opened Bytes
  import opened Lists

  // ---- election_result ----

  /** strcasecmp(a, b) < 0. */
  predicate CaseLess(a: seq<Byte>, b: seq<Byte>) {
    if b == [] then false
    else if a == [] then true
    else if Lower(a[0]) != Lower(b[0]) then Lower(a[0]) < Lower(b[0])
    else CaseLess(a[1..], b[1..])
  }

  /** The peer `own` wins the election against `other` if its identity is the larger one. */
  predicate Won(own: seq<Byte>, other: seq<Byte>) {
    CaseLess(other, own)
  }

  /** At `n`, after equal letters, `a` ends or has the smaller letter. */
  ghost predicate SmallerAt(a: seq<Byte>, b: seq<Byte>, n: nat) {
    && n <= |a| && n < |b|
    && (forall i :: 0 <= i < n ==> Lower(a[i]) == Lower(b[i]))
    && (n == |a| || Lower(a[n]) < Lower(b[n]))
  }

  lemma SmallerAtTail(a: seq<Byte>, b: seq<Byte>, n: nat)
    requires a != [] && b != [] && Lower(a[0]) == Lower(b[0])
    ensures SmallerAt(a, b, n + 1) <==> SmallerAt(a[1..], b[1..], n)
  {
  }

  /** The comparison is the lexical order of the identities without case: the first difference decides. */
  lemma {:induction false} CaseLessMeaning(a: seq<Byte>, b: seq<Byte>)
    ensures CaseLess(a, b) <==> exists n: nat :: SmallerAt(a, b, n)
  {
    if a != [] && b != [] && Lower(a[0]) == Lower(b[0]) {
      CaseLessMeaning(a[1..], b[1..]);
      if CaseLess(a, b) {
        var m: nat :| SmallerAt(a[1..], b[1..], m);
        SmallerAtTail(a, b, m);
      }
      if n: nat :| SmallerAt(a, b, n) {
        SmallerAtTail(a, b, n - 1);
      }
    } else if CaseLess(a, b) {
      assert SmallerAt(a, b, 0);
    }
  }

  /** The peer with the larger identity wins: where the two first differ, without case, the other is smaller or ends. */
  lemma WonMeaning(own: seq<Byte>, other: seq<Byte>)
    ensures Won(own, other) <==> exists n: nat :: SmallerAt(other, own, n)
  {
    CaseLessMeaning(other, own);
  }

  /** Of two peers whose identities differ ignoring case, exactly one wins; with equal ones neither does. */
  lemma {:induction false} ExactlyOneWins(a: seq<Byte>, b: seq<Byte>)
    ensures AllLower(a) != AllLower(b) ==> Won(a, b) != Won(b, a)
    ensures AllLower(a) == AllLower(b) ==> !Won(a, b) && !Won(b, a)
  {
    if a != [] && b != [] {
      ExactlyOneWins(a[1..], b[1..]);
      assert AllLower(a) == [Lower(a[0])] + AllLower(a[1..]);
      assert AllLower(b) == [Lower(b[0])] + AllLower(b[1..]);
      assert AllLower(a[1..]) == AllLower(a)[1..] && AllLower(b[1..]) == AllLower(b)[1..];
    }
  }

  // ---- Two peers, two connections ----

  /** A peer: `true` and `false` name the two of them, and each the connection it initiates. */
  datatype Pair<T> = Pair(yes: T, no: T) {
    function At(x: bool): T {
      if x then yes else no
    }

    function With(x: bool, t: T): Pair<T> {
      if x then Pair(t, no) else Pair(yes, t)
    }
  }

  /** The states of p_psm.c that matter, OPEN with the connection in use: the one initiated here or the other. */
  datatype Side = Closed | WaitCnxAck | WaitCnxAckElec | WaitCea | Open(own: bool)

  datatype End = Absent | Up | Destroyed

  datatype Result = Success | ElectionLost | UnableToComply

  /** What waits to be handled by a peer; an error does not say which connection it is about. */
  datatype Event = Cer | Cea(r: Result) | Error

  datatype Events = Nothing | Then(first: Event, later: Events)

  /** A peer, and whether it has tried to connect. */
  datatype Peer = Peer(side: Side, tried: bool, queue: Events)

  /** A connection: its two ends, what is under way on it, and whether its initiator was told that it is closed. */
  datatype Wire = Wire(initiator: End, acceptor: End, cer: bool, cea: Option<Result>, told: bool)

  const NO_WIRE := Wire(Absent, Absent, false, None, false)

  datatype Net = Net(peers: Pair<Peer>, wires: Pair<Wire>) {
    function Side(x: bool): Side {
      peers.At(x).side
    }

    function Moved(x: bool, s: Side): Net {
      this.(peers := peers.With(x, peers.At(x).(side := s)))
    }

    function Wired(c: bool, w: Wire): Net {
      this.(wires := wires.With(c, w))
    }

    function Queued(x: bool, q: Events): Net {
      this.(peers := peers.With(x, peers.At(x).(queue := q)))
    }
  }

  const INITIAL := Net(Pair(Peer(Closed, false, Nothing), Peer(Closed, false, Nothing)), Pair(NO_WIRE, NO_WIRE))

  function Append(q: Events, e: Event): Events {
    if q == Nothing then Then(e, Nothing) else Then(q.first, Append(q.later, e))
  }

  predicate Holds(q: Events, e: Event) {
    q != Nothing && (q.first == e || Holds(q.later, e))
  }

  datatype Step =
    | Attempt(x: bool)       // x, in CLOSED, starts to connect
    | Established(x: bool)   // x learns that its connection is established
    | CerArrives(c: bool)    // the CER on the connection of c reaches the other peer
    | CeaArrives(c: bool)    // the CEA on the connection of c reaches c
    | CeaLost(c: bool)       // c closed its end before the CEA arrived
    | CloseArrives(c: bool)  // c finds its connection closed by the other end
    | LossArrives(c: bool)   // the peer in service on the connection of c finds it closed by c
    | Handle(x: bool)        // x handles the first event of its queue

  /** !c answers on the connection of c, which it keeps, or closes after a rejection. */
  function Accepted(n: Net, c: bool): Net {
    n.Moved(!c, Open(false)).Wired(c, n.wires.At(c).(acceptor := Up, cea := Some(Success)))
  }

  function Rejected(n: Net, c: bool, r: Result): Net {
    n.Wired(c, n.wires.At(c).(acceptor := Destroyed, cea := Some(r)))
  }

  /** The reset to CLOSED: the connections of x are destroyed, and so are the events it has not handled. */
  function Reset(n: Net, x: bool): Net {
    var p, own, other := n.peers.At(x), n.wires.At(x), n.wires.At(!x);
    var n1 := if own.initiator == Up then n.Wired(x, own.(initiator := Destroyed)) else n;
    var n2 := if other.acceptor == Up || Holds(p.queue, Cer) then n1.Wired(!x, other.(acceptor := Destroyed)) else n1;
    n2.(peers := n2.peers.With(x, Peer(Closed, p.tried, Nothing)))
  }

  /** fd_p_ce_handle_newcnx. */
  function OnEstablished(n: Net, x: bool, won: bool): Net {
    var up := n.wires.At(x).(initiator := Up, cer := true);
    if n.Side(x) == WaitCnxAckElec then
      if won then Accepted(n.Wired(x, up.(initiator := Destroyed)), !x)
      else Rejected(n, !x, ElectionLost).Moved(x, WaitCea).Wired(x, up)
    else n.Moved(x, WaitCea).Wired(x, up)
  }

  /** fd_p_ce_handle_newCER, at the peer that did not initiate c. */
  function OnCer(n: Net, c: bool, won: bool): Net {
    match n.Side(!c)
    case Closed => Accepted(n, c)
    case WaitCnxAck => n.Moved(!c, WaitCnxAckElec).Wired(c, n.wires.At(c).(acceptor := Up))
    case WaitCea =>
      if won then Accepted(n.Wired(!c, n.wires.At(!c).(initiator := Destroyed)), c)
      else Rejected(n, c, ElectionLost)
    case _ => Rejected(n, c, UnableToComply)
  }

  /** fd_p_ce_msgrcv, at the peer that initiated c. */
  function OnCea(n: Net, c: bool, r: Result): Net {
    if n.Side(c) != WaitCea then n
    else match r
      case Success => n.Moved(c, Open(true))
      case UnableToComply => Reset(n, c)
      case ElectionLost => n
  }

  /** The event FDEVP_CNX_ERROR. */
  function OnError(n: Net, x: bool): Net {
    match n.Side(x)
    case Closed => n
    case WaitCnxAckElec => Accepted(n, !x)
    case _ => Reset(n, x)
  }

  function Handled(n: Net, x: bool, won: bool): Net
    requires n.peers.At(x).queue != Nothing
  {
    var q := n.peers.At(x).queue;
    var n' := n.Queued(x, q.later);
    match q.first
    case Cer => OnCer(n', !x, won)
    case Cea(r) => OnCea(n', x, r)
    case Error => OnError(n', x)
  }

  predicate Enabled(n: Net, s: Step) {
    match s
    case Attempt(x) => n.Side(x) == Closed && !n.peers.At(x).tried
    case Established(x) => n.Side(x) == WaitCnxAck || n.Side(x) == WaitCnxAckElec
    case CerArrives(c) => n.wires.At(c).cer
    case CeaArrives(c) => n.wires.At(c).cea.Some? && n.wires.At(c).initiator == Up
    case CeaLost(c) => n.wires.At(c).cea.Some? && n.wires.At(c).initiator != Up
    case CloseArrives(c) =>
      var w := n.wires.At(c); w.acceptor == Destroyed && w.initiator == Up && w.cea == None && !w.told
    case LossArrives(c) =>
      var w := n.wires.At(c); w.initiator == Destroyed && w.acceptor == Up && n.Side(!c) == Open(false)
    case Handle(x) => n.peers.At(x).queue != Nothing
  }

  function Pushed(n: Net, x: bool, e: Event): Net {
    n.Queued(x, Append(n.peers.At(x).queue, e))
  }

  /** `won` is what election_result says at each peer. */
  function After(n: Net, s: Step, won: Pair<bool>): Net
    requires Enabled(n, s)
  {
    match s
    case Attempt(x) => n.(peers := n.peers.With(x, n.peers.At(x).(side := WaitCnxAck, tried := true)))
    case Established(x) => OnEstablished(n, x, won.At(x))
    case CerArrives(c) => Pushed(n, !c, Cer).Wired(c, n.wires.At(c).(cer := false))
    case CeaArrives(c) => Pushed(n, c, Cea(n.wires.At(c).cea.value)).Wired(c, n.wires.At(c).(cea := None))
    case CeaLost(c) => n.Wired(c, n.wires.At(c).(cea := None))
    case CloseArrives(c) => Pushed(n, c, Error).Wired(c, n.wires.At(c).(told := true))
    case LossArrives(c) => Pushed(n, !c, Error)
    case Handle(x) => Handled(n, x, won.At(x))
  }

  // ---- What every run keeps ----

  function One(e: Event): Events {
    Then(e, Nothing)
  }

  function Two(e: Event, f: Event): Events {
    Then(e, One(f))
  }

  function Three(e: Event, f: Event, g: Event): Events {
    Then(e, Two(f, g))
  }

  const YES: Event := Cea(Success)
  const LOST: Event := Cea(ElectionLost)

  /** The CER is still under way, or it is the one event of the queue. */
  ghost predicate CerOnItsWay(cer: bool, q: Events) {
    q == if cer then Nothing else One(Cer)
  }

  /** So is the CEA that says success. */
  ghost predicate CeaOnItsWay(cea: Option<Result>, q: Events) {
    (cea == Some(Success) && q == Nothing) || (cea == None && q == One(YES))
  }

  /** The connection that was given up, after both ends were destroyed and everybody knows. */
  const GONE := Wire(Destroyed, Destroyed, false, None, true)

  // w and l are the winner and the loser of the election, ww and wl the connections they initiate.

  /** The loser has no connection of its own: if it takes the winner's, it never tried. */
  ghost predicate LoserWithout(w: Peer, l: Peer, ww: Wire, wl: Wire) {
    && wl == NO_WIRE && (w.tried <==> w.side != Closed)
    && match l.side
       case Closed => !l.tried && BeforeCer(w, l, ww)
       case WaitCnxAck => l.tried && BeforeCer(w, l, ww)
       case WaitCnxAckElec =>
         l.tried && l.queue == w.queue == Nothing && w.side == WaitCea && ww == Wire(Up, Up, false, None, false)
       case Open(own) =>
         && !own && !l.tried && l.queue == Nothing && ww == Wire(Up, Up, false, ww.cea, false)
         && ((w.side == WaitCea && CeaOnItsWay(ww.cea, w.queue))
             || (w.side == Open(true) && ww.cea == None && w.queue == Nothing))
       case _ => false
  }

  ghost predicate BeforeCer(w: Peer, l: Peer, ww: Wire) {
    && w.queue == Nothing
    && ((ww == NO_WIRE && (w.side == Closed || w.side == WaitCnxAck) && l.queue == Nothing)
        || (ww == Wire(Up, Absent, ww.cer, None, false) && w.side == WaitCea && CerOnItsWay(ww.cer, l.queue)))
  }

  /** The loser waits for its CEA and the winner has not handled the CER. */
  ghost predicate LoserWaits(w: Peer, l: Peer, ww: Wire, wl: Wire) {
    && l.side == WaitCea && l.tried && wl == Wire(Up, Absent, wl.cer, None, false)
    && match w.side
       case Closed => l.queue == Nothing && CerOnItsWay(wl.cer, w.queue) && ww == if w.tried then GONE else NO_WIRE
       case WaitCnxAck => l.queue == Nothing && CerOnItsWay(wl.cer, w.queue) && w.tried && ww == NO_WIRE
       case WaitCea =>
         && w.tried
         && ((ww == Wire(Up, Absent, ww.cer, None, false)
              && CerOnItsWay(ww.cer, l.queue) && CerOnItsWay(wl.cer, w.queue))
             || (ww == Wire(Up, Destroyed, false, ww.cea, ww.told) && l.queue == Nothing
                 && Refusal(ww.cea, ww.told, wl.cer, w.queue)))
       case _ => false
  }

  /** The answer and the close that tell the winner its connection is refused, in this order; the CER anywhere. */
  ghost predicate Refusal(cea: Option<Result>, told: bool, cer: bool, q: Events) {
    match cea
    case Some(r) => r == ElectionLost && !told && CerOnItsWay(cer, q)
    case None =>
      if told then
        if cer then q == Two(LOST, Error) || q == One(Error)
        else || q == Three(Cer, LOST, Error) || q == Three(LOST, Cer, Error) || q == Three(LOST, Error, Cer)
             || q == Two(Cer, Error) || q == Two(Error, Cer)
      else
        if cer then q == One(LOST) || q == Nothing
        else q == Two(Cer, LOST) || q == Two(LOST, Cer) || q == One(Cer)
  }

  /** The winner holds the loser's connection until it knows about its own. */
  ghost predicate WinnerHolds(w: Peer, l: Peer, ww: Wire, wl: Wire) {
    && w == Peer(WaitCnxAckElec, true, Nothing) && l == Peer(WaitCea, true, Nothing)
    && ww == NO_WIRE && wl == Wire(Up, Up, false, None, false)
  }

  /** The winner is in service on the loser's connection, and its own is being given up. */
  ghost predicate WinnerServes(w: Peer, l: Peer, ww: Wire, wl: Wire) {
    && w.side == Open(false) && l.tried && wl == Wire(Up, Up, false, wl.cea, false)
    && ((ww == NO_WIRE && !w.tried && w.queue == Nothing && LoserLearns(l, wl.cea, false))
        || (w.tried && ww == Wire(Destroyed, Absent, ww.cer, None, false) && w.queue == Nothing
            && LoserLearns(l, wl.cea, !ww.cer))
        || (w.tried && ww == Wire(Destroyed, Destroyed, false, ww.cea, ww.told) && LoserLearns(l, wl.cea, false)
            && Leftover(ww.cea, ww.told, w.queue)))
  }

  /** The loser has its CEA, or it is under way or queued; `cer` tells if the winner's CER is queued too. */
  ghost predicate LoserLearns(l: Peer, cea: Option<Result>, cer: bool) {
    if l.side == WaitCea && cea == None then
      if cer then l.queue == Two(Cer, YES) || l.queue == Two(YES, Cer) else l.queue == One(YES)
    else
      && ((l.side == WaitCea && cea == Some(Success)) || (l.side == Open(true) && cea == None))
      && l.queue == if cer then One(Cer) else Nothing
  }

  /** What can be left of the refusal when the winner no longer waits for it. */
  ghost predicate Leftover(cea: Option<Result>, told: bool, q: Events) {
    match cea
    case Some(r) => r != Success && !told && q == Nothing
    case None => q == Nothing || (q == One(LOST) && !told) || (told && (q == One(Error) || q == Two(LOST, Error)))
  }

  /** The winner has closed the connection of the loser, who will find out. */
  ghost predicate Broken(w: Peer, l: Peer, ww: Wire, wl: Wire) {
    && w == Peer(Closed, true, Nothing) && ww == GONE && l.tried
    && if l.side == Closed then l.queue == Nothing && wl == GONE
       else
         && (l.side == WaitCea || l.side == Open(true)) && wl == Wire(Up, Destroyed, false, wl.cea, wl.told)
         && (wl.cea == None ==> l.queue == (if wl.told then One(Error) else Nothing)
                                || (l.side == WaitCea && l.queue == if wl.told then Two(YES, Error) else One(YES)))
         && (wl.cea != None ==> wl.cea == Some(Success) && !wl.told && l.queue == Nothing && l.side == WaitCea)
  }

  ghost predicate Sound(w: Peer, l: Peer, ww: Wire, wl: Wire) {
    LoserWithout(w, l, ww, wl) || LoserWaits(w, l, ww, wl) || WinnerHolds(w, l, ww, wl) || WinnerServes(w, l, ww, wl)
  }

  ghost predicate Inv(n: Net, winner: bool) {
    Sound(n.peers.At(winner), n.peers.At(!winner), n.wires.At(winner), n.wires.At(!winner))
  }

  ghost predicate BrokenInv(n: Net, winner: bool) {
    Broken(n.peers.At(winner), n.peers.At(!winner), n.wires.At(winner), n.wires.At(!winner))
  }

  /**
   An error handled too late, or too early: the peer is in service on the other connection already, or the CER of
   that connection waits behind the error and is thrown away with the queue.
   */
  predicate Untimely(n: Net, s: Step) {
    && s.Handle? && n.peers.At(s.x).queue != Nothing && n.peers.At(s.x).queue.first == Error
    && (n.Side(s.x) == Open(false) || Holds(n.peers.At(s.x).queue, Cer))
  }

  lemma AttemptKeeps(n: Net, x: bool, won: Pair<bool>)
    requires Enabled(n, Attempt(x)) && Inv(n, won.yes) && won.yes != won.no
    ensures Inv(After(n, Attempt(x), won), won.yes)
  {
  }

  lemma EstablishedKeeps(n: Net, x: bool, won: Pair<bool>)
    requires Enabled(n, Established(x)) && Inv(n, won.yes) && won.yes != won.no
    ensures Inv(After(n, Established(x), won), won.yes)
  {
  }

  lemma CerArrivesKeeps(n: Net, c: bool, won: Pair<bool>)
    requires Enabled(n, CerArrives(c)) && Inv(n, won.yes) && won.yes != won.no
    ensures Inv(After(n, CerArrives(c), won), won.yes)
  {
  }

  lemma CeaArrivesKeeps(n: Net, c: bool, won: Pair<bool>)
    requires Enabled(n, CeaArrives(c)) && Inv(n, won.yes) && won.yes != won.no
    ensures Inv(After(n, CeaArrives(c), won), won.yes)
  {
  }

  lemma CloseArrivesKeeps(n: Net, c: bool, won: Pair<bool>)
    requires Enabled(n, CloseArrives(c)) && Inv(n, won.yes) && won.yes != won.no
    ensures Inv(After(n, CloseArrives(c), won), won.yes)
  {
  }

  lemma WinnerHandlesCer(n: Net, x: bool)
    requires Inv(n, x) && n.peers.At(x).queue != Nothing && n.peers.At(x).queue.first == Cer
    ensures Inv(Handled(n, x, true), x)
  {
  }

  lemma WinnerHandlesCea(n: Net, x: bool)
    requires Inv(n, x) && n.peers.At(x).queue != Nothing && n.peers.At(x).queue.first.Cea?
    ensures Inv(Handled(n, x, true), x)
  {
  }

  lemma LoserHandlesCer(n: Net, x: bool)
    requires Inv(n, !x) && n.peers.At(x).queue != Nothing && n.peers.At(x).queue.first == Cer
    ensures Inv(Handled(n, x, false), !x)
  {
  }

  lemma LoserHandlesCea(n: Net, x: bool)
    requires Inv(n, !x) && n.peers.At(x).queue != Nothing && n.peers.At(x).queue.first.Cea?
    ensures Inv(Handled(n, x, false), !x)
  {
  }

  /** What comes of an error at the winner depends on the moment. */
  lemma WinnerHandlesError(n: Net, x: bool)
    requires Inv(n, x) && n.peers.At(x).queue != Nothing && n.peers.At(x).queue.first == Error
    ensures if Untimely(n, Handle(x)) then BrokenInv(Handled(n, x, true), x) else Inv(Handled(n, x, true), x)
  {
  }

  lemma LoserHandlesNoError(n: Net, x: bool)
    requires Inv(n, !x) && n.peers.At(x).queue != Nothing
    ensures n.peers.At(x).queue.first != Error
  {
  }

  lemma HandleKeeps(n: Net, x: bool, won: Pair<bool>)
    requires Enabled(n, Handle(x)) && Inv(n, won.yes) && won.yes != won.no
    ensures var r := Handled(n, x, won.At(x));
            if Untimely(n, Handle(x)) then BrokenInv(r, won.yes) else Inv(r, won.yes)
  {
    var e := n.peers.At(x).queue.first;
    if won.At(x) {
      match e
      case Cer => WinnerHandlesCer(n, x);
      case Cea(_) => WinnerHandlesCea(n, x);
      case Error => WinnerHandlesError(n, x);
    } else {
      LoserHandlesNoError(n, x);
      match e
      case Cer => LoserHandlesCer(n, x);
      case Cea(_) => LoserHandlesCea(n, x);
    }
  }

  lemma NoLoss(n: Net, c: bool, winner: bool)
    requires Inv(n, winner) || BrokenInv(n, winner)
    ensures !Enabled(n, LossArrives(c))
  {
  }

  lemma StepKeepsInv(n: Net, s: Step, won: Pair<bool>)
    requires Enabled(n, s) && Inv(n, won.yes) && won.yes != won.no
    ensures if Untimely(n, s) then BrokenInv(After(n, s, won), won.yes) else Inv(After(n, s, won), won.yes)
  {
    match s
    case Attempt(x) => AttemptKeeps(n, x, won);
    case Established(x) => EstablishedKeeps(n, x, won);
    case CerArrives(c) => CerArrivesKeeps(n, c, won);
    case CeaArrives(c) => CeaArrivesKeeps(n, c, won);
    case CeaLost(c) =>
    case CloseArrives(c) => CloseArrivesKeeps(n, c, won);
    case LossArrives(c) =>
      NoLoss(n, c, won.yes);
      assert false;
    case Handle(x) => HandleKeeps(n, x, won);
  }

  lemma HandleKeepsBroken(n: Net, x: bool, won: Pair<bool>)
    requires Enabled(n, Handle(x)) && BrokenInv(n, won.yes) && won.yes != won.no
    ensures BrokenInv(Handled(n, x, won.At(x)), won.yes)
  {
  }

  lemma ArrivalKeepsBroken(n: Net, s: Step, won: Pair<bool>)
    requires Enabled(n, s) && BrokenInv(n, won.yes) && (s.CeaArrives? || s.CloseArrives?)
    ensures BrokenInv(After(n, s, won), won.yes)
  {
  }

  lemma StepKeepsBroken(n: Net, s: Step, won: Pair<bool>)
    requires Enabled(n, s) && BrokenInv(n, won.yes) && won.yes != won.no
    ensures BrokenInv(After(n, s, won), won.yes)
  {
    if s.Handle? {
      HandleKeepsBroken(n, s.x, won);
    } else if s.CeaArrives? || s.CloseArrives? {
      ArrivalKeepsBroken(n, s, won);
    }
  }

  // ---- Work left: every step does some ----

  function PeerWork(p: Peer): nat {
    (match p.side
     case Closed => if p.tried then 0 else 6
     case WaitCnxAck => 5
     case WaitCnxAckElec => 7
     case _ => 0) + QueueWork(p.queue)
  }

  function QueueWork(q: Events): nat {
    if q == Nothing then 0 else (if q.first == Cer then 3 else 1) + QueueWork(q.later)
  }

  function WireWork(w: Wire): nat {
    (if w.cer then 4 else 0) + (if w.cea.Some? then 2 else 0) + if w.told then 0 else 2
  }

  function Work(n: Net): nat {
    PeerWork(n.peers.yes) + PeerWork(n.peers.no) + WireWork(n.wires.yes) + WireWork(n.wires.no)
  }

  lemma {:induction false} AppendWork(q: Events, e: Event)
    ensures QueueWork(Append(q, e)) == QueueWork(q) + if e == Cer then 3 else 1
  {
    if q != Nothing {
      AppendWork(q.later, e);
    }
  }

  lemma ArrivalDoesWork(n: Net, s: Step, won: Pair<bool>)
    requires Enabled(n, s) && (s.CerArrives? || s.CeaArrives? || s.CloseArrives?)
    ensures Work(After(n, s, won)) < Work(n)
  {
    match s
    case CerArrives(c) => AppendWork(n.peers.At(!c).queue, Cer);
    case CeaArrives(c) => AppendWork(n.peers.At(c).queue, Cea(n.wires.At(c).cea.value));
    case CloseArrives(c) => AppendWork(n.peers.At(c).queue, Error);
    case _ =>
  }

  lemma EstablishedDoesWork(n: Net, x: bool, won: Pair<bool>)
    requires Enabled(n, Established(x)) && (Inv(n, won.yes) || BrokenInv(n, won.yes)) && won.yes != won.no
    ensures Work(After(n, Established(x), won)) < Work(n)
  {
  }

  /** Whoever is told of an error or a CEA has tried to connect. */
  lemma ToldMeansTried(n: Net, x: bool, winner: bool)
    requires Inv(n, winner) || BrokenInv(n, winner)
    requires n.peers.At(x).queue != Nothing && n.peers.At(x).queue.first != Cer
    ensures n.peers.At(x).tried
  {
  }

  lemma ResetWork(n: Net, x: bool)
    requires n.peers.At(x).tried
    ensures Work(Reset(n, x)) <= Work(n)
  {
  }

  lemma WiredWork(n: Net, c: bool, w: Wire)
    ensures Work(n.Wired(c, w)) == Work(n) - WireWork(n.wires.At(c)) + WireWork(w)
  {
  }

  lemma AcceptedWork(n: Net, c: bool)
    ensures Work(Accepted(n, c)) <= Work(n) + 2
  {
  }

  lemma RejectedWork(n: Net, c: bool, r: Result)
    ensures Work(Rejected(n, c, r)) <= Work(n) + 2
  {
  }

  lemma CerWork(n: Net, c: bool, won: bool)
    ensures Work(OnCer(n, c, won)) <= Work(n) + 2
  {
    match n.Side(!c)
    case Closed => AcceptedWork(n, c);
    case WaitCnxAck =>
      assert Work(n.Moved(!c, WaitCnxAckElec)) == Work(n) + 2;
      WiredWork(n.Moved(!c, WaitCnxAckElec), c, n.wires.At(c).(acceptor := Up));
    case WaitCea =>
      var gone := n.wires.At(!c).(initiator := Destroyed);
      WiredWork(n, !c, gone);
      AcceptedWork(n.Wired(!c, gone), c);
      RejectedWork(n, c, ElectionLost);
    case _ => RejectedWork(n, c, UnableToComply);
  }

  lemma ErrorWork(n: Net, x: bool)
    requires n.peers.At(x).tried
    ensures Work(OnError(n, x)) <= Work(n)
  {
    ResetWork(n, x);
  }

  lemma TakenWork(n: Net, x: bool)
    requires n.peers.At(x).queue != Nothing
    ensures var q := n.peers.At(x).queue; Work(n) == Work(n.Queued(x, q.later)) + if q.first == Cer then 3 else 1
  {
  }

  lemma HandleDoesWork(n: Net, x: bool, won: Pair<bool>)
    requires Enabled(n, Handle(x)) && (n.peers.At(x).queue.first != Cer ==> n.peers.At(x).tried)
    ensures Work(Handled(n, x, won.At(x))) < Work(n)
  {
    TakenWork(n, x);
    var q := n.peers.At(x).queue;
    var n' := n.Queued(x, q.later);
    assert n'.peers.At(x).tried == n.peers.At(x).tried;
    match q.first
    case Cer => CerWork(n', !x, won.At(x));
    case Cea(_) => ResetWork(n', x);
    case Error => ErrorWork(n', x);
  }

  lemma StepDoesWork(n: Net, s: Step, won: Pair<bool>)
    requires Enabled(n, s) && (Inv(n, won.yes) || BrokenInv(n, won.yes)) && won.yes != won.no
    ensures Work(After(n, s, won)) < Work(n)
  {
    match s
    case Attempt(x) =>
    case Established(x) => EstablishedDoesWork(n, x, won);
    case CeaLost(c) =>
    case LossArrives(c) =>
      NoLoss(n, c, won.yes);
      assert false;
    case Handle(x) =>
      if n.peers.At(x).queue.first != Cer {
        ToldMeansTried(n, x, won.yes);
      }
      HandleDoesWork(n, x, won);
    case _ => ArrivalDoesWork(n, s, won);
  }

  // ---- The end ----

  /** Both use the connection of c; the other one is closed at both ends, or was never made. */
  ghost predicate Agreed(n: Net, c: bool) {
    && n.Side(c) == Open(true) && n.Side(!c) == Open(false)
    && n.wires.At(c).initiator == Up && n.wires.At(c).acceptor == Up
    && (n.wires.At(!c) == NO_WIRE || (n.wires.At(!c).initiator == Destroyed && n.wires.At(!c).acceptor == Destroyed))
  }

  ghost predicate Quiet(n: Net) {
    forall s :: !Enabled(n, s)
  }

  lemma NothingLeft(n: Net, x: bool)
    requires Quiet(n)
    ensures !Enabled(n, Attempt(x)) && !Enabled(n, Established(x)) && !Enabled(n, CerArrives(x))
    ensures !Enabled(n, CeaArrives(x)) && !Enabled(n, CeaLost(x)) && !Enabled(n, CloseArrives(x))
    ensures !Enabled(n, Handle(x))
  {
  }

  /** When nothing more can happen, the peers agree: on the loser's connection, if the loser made one. */
  lemma QuietMeansAgreed(n: Net, winner: bool)
    requires Inv(n, winner) && Quiet(n)
    ensures Agreed(n, if n.wires.At(!winner) == NO_WIRE then winner else !winner)
  {
    NothingLeft(n, winner);
    NothingLeft(n, !winner);
  }

  lemma QuietMeansClosed(n: Net, winner: bool)
    requires BrokenInv(n, winner) && Quiet(n)
    ensures n.Side(true) == Closed && n.Side(false) == Closed
  {
    NothingLeft(n, winner);
    NothingLeft(n, !winner);
  }

  /** At no moment are both in service on different connections. */
  lemma NeverApart(n: Net, winner: bool)
    requires (Inv(n, winner) || BrokenInv(n, winner)) && n.Side(true).Open? && n.Side(false).Open?
    ensures n.Side(true).own != n.Side(false).own
  {
  }

  function Verdicts(ids: Pair<seq<Byte>>): Pair<bool> {
    Pair(Won(ids.yes, ids.no), Won(ids.no, ids.yes))
  }

  ghost predicate ElectionRun(ns: seq<Net>, steps: seq<Step>, won: Pair<bool>) {
    && |ns| == |steps| + 1 && ns[0] == INITIAL
    && forall i :: 0 <= i < |steps| ==> Enabled(ns[i], steps[i]) && ns[i + 1] == After(ns[i], steps[i], won)
  }

  /** An untimely error was handled within the first k steps. */
  ghost predicate Disturbed(ns: seq<Net>, steps: seq<Step>, k: nat)
    requires k <= |steps| <= |ns|
  {
    exists i :: 0 <= i < k && Untimely(ns[i], steps[i])
  }

  lemma {:induction false} RunInv(ns: seq<Net>, steps: seq<Step>, won: Pair<bool>, k: nat)
    requires ElectionRun(ns, steps, won) && won.yes != won.no && k <= |steps|
    ensures if Disturbed(ns, steps, k) then BrokenInv(ns[k], won.yes) else Inv(ns[k], won.yes)
    ensures Work(ns[k]) + k <= Work(INITIAL)
  {
    if k > 0 {
      RunInv(ns, steps, won, k - 1);
      var n, s := ns[k - 1], steps[k - 1];
      assert Disturbed(ns, steps, k) <==> Disturbed(ns, steps, k - 1) || Untimely(n, s);
      if Disturbed(ns, steps, k - 1) {
        StepKeepsBroken(n, s, won);
      } else {
        StepKeepsInv(n, s, won);
      }
      StepDoesWork(n, s, won);
    }
  }

  /**
   Election agreement. If the identities differ ignoring case, at position d, where that of `smaller` ends or has the
   smaller letter, then in every interleaving of the two connection attempts, the closing of the connections that are
   given up included, the peers are never in service on different connections and the exchange ends after at most
   sixteen steps. When it has ended, if no error was handled at the wrong moment both use the connection initiated by
   the peer with the smaller identity, or the only one there is if that peer made none, and the other one is closed at
   both ends; otherwise both are back in CLOSED.
   */
  lemma Agreement(ids: Pair<seq<Byte>>, ns: seq<Net>, steps: seq<Step>, smaller: bool, d: nat)
    requires SmallerAt(ids.At(smaller), ids.At(!smaller), d) && ElectionRun(ns, steps, Verdicts(ids))
    ensures |steps| <= 16
    ensures forall n :: n in ns && n.Side(true).Open? && n.Side(false).Open? ==> n.Side(true).own != n.Side(false).own
    ensures var n := ns[|steps|];
            Quiet(n) ==>
              if Disturbed(ns, steps, |steps|) then n.Side(true) == n.Side(false) == Closed
              else Agreed(n, if n.wires.At(smaller) != NO_WIRE then smaller else !smaller)
  {
    var won, n := Verdicts(ids), ns[|steps|];
    SmallerLoses(ids, smaller, d);
    RunInv(ns, steps, won, |steps|);
    forall m | m in ns && m.Side(true).Open? && m.Side(false).Open? ensures m.Side(true).own != m.Side(false).own {
      var k :| 0 <= k < |ns| && ns[k] == m;
      RunInv(ns, steps, won, k);
      NeverApart(m, won.yes);
    }
    if Quiet(n) {
      if Disturbed(ns, steps, |steps|) {
        QuietMeansClosed(n, won.yes);
      } else {
        QuietMeansAgreed(n, won.yes);
      }
    }
  }

  /** Such a position exists exactly if the identities differ ignoring case. */
  lemma IdentitiesDiffer(ids: Pair<seq<Byte>>)
    ensures AllLower(ids.yes) != AllLower(ids.no) <==>
            (exists d: nat :: SmallerAt(ids.yes, ids.no, d)) || (exists d: nat :: SmallerAt(ids.no, ids.yes, d))
  {
    ExactlyOneWins(ids.yes, ids.no);
    WonMeaning(ids.yes, ids.no);
    WonMeaning(ids.no, ids.yes);
  }

  lemma SmallerLoses(ids: Pair<seq<Byte>>, smaller: bool, d: nat)
    requires SmallerAt(ids.At(smaller), ids.At(!smaller), d)
    ensures var won := Verdicts(ids); won.At(!smaller) && !won.At(smaller)
  {
    WonMeaning(ids.At(!smaller), ids.At(smaller));
    ExactlyOneWins(ids.yes, ids.no);
  }
}
