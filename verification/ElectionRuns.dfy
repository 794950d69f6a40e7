/** Two runs of an election that end with nobody in service. */
module ElectionRuns {

  import opened Bytes
  import opened Lists
  import opened Election

  /** A net seen from c: its peer, the other one, and their connections. */
  function Made(c: bool, p: Peer, q: Peer, v: Wire, w: Wire): Net {
    if c then Net(Pair(p, q), Pair(v, w)) else Net(Pair(q, p), Pair(w, v))
  }

  ghost predicate Leads(n: Net, s: Step, n': Net, won: Pair<bool>) {
    Enabled(n, s) && n' == After(n, s, won)
  }

  lemma LeadsMakeARun(ns: seq<Net>, steps: seq<Step>, won: Pair<bool>)
    requires |ns| == |steps| + 1 && ns[0] == INITIAL
    requires forall i :: 0 <= i < |steps| ==> Leads(ns[i], steps[i], ns[i + 1], won)
    ensures ElectionRun(ns, steps, won)
  {
    forall i | 0 <= i < |steps| ensures Enabled(ns[i], steps[i]) && ns[i + 1] == After(ns[i], steps[i], won) {
      assert Leads(ns[i], steps[i], ns[i + 1], won);
    }
  }

  /** Nobody in service, and nothing more to happen. */
  const FAILED := Net(Pair(Peer(Closed, true, Nothing), Peer(Closed, true, Nothing)), Pair(GONE, GONE))

  lemma FailedIsQuiet()
    ensures Quiet(FAILED)
  {
  }

  // ---- An untimely error ----

  /** c, who wins, is told that its connection is refused just when the CER of the other one has arrived. */
  ghost function DisturbedSteps(c: bool): seq<Step> {
    [Attempt(c), Established(c), CerArrives(c), Attempt(!c), Established(!c), Handle(!c), CeaArrives(c),
     CloseArrives(c), Handle(c), CerArrives(!c), Handle(c), CloseArrives(!c), Handle(!c)]
  }

  ghost function DisturbedStates(c: bool): seq<Net> {
    [Made(c, Peer(Closed, false, Nothing), Peer(Closed, false, Nothing), NO_WIRE, NO_WIRE),
     Made(c, Peer(WaitCnxAck, true, Nothing), Peer(Closed, false, Nothing), NO_WIRE, NO_WIRE),
     Made(c, Peer(WaitCea, true, Nothing), Peer(Closed, false, Nothing), Wire(Up, Absent, true, None, false), NO_WIRE),
     Made(c, Peer(WaitCea, true, Nothing), Peer(Closed, false, One(Cer)),
          Wire(Up, Absent, false, None, false), NO_WIRE),
     Made(c, Peer(WaitCea, true, Nothing), Peer(WaitCnxAck, true, One(Cer)),
          Wire(Up, Absent, false, None, false), NO_WIRE),
     Made(c, Peer(WaitCea, true, Nothing), Peer(WaitCea, true, One(Cer)),
          Wire(Up, Absent, false, None, false), Wire(Up, Absent, true, None, false)),
     Made(c, Peer(WaitCea, true, Nothing), Peer(WaitCea, true, Nothing),
          Wire(Up, Destroyed, false, Some(ElectionLost), false), Wire(Up, Absent, true, None, false)),
     Made(c, Peer(WaitCea, true, One(LOST)), Peer(WaitCea, true, Nothing),
          Wire(Up, Destroyed, false, None, false), Wire(Up, Absent, true, None, false)),
     Made(c, Peer(WaitCea, true, Two(LOST, Error)), Peer(WaitCea, true, Nothing),
          Wire(Up, Destroyed, false, None, true), Wire(Up, Absent, true, None, false)),
     Made(c, Peer(WaitCea, true, One(Error)), Peer(WaitCea, true, Nothing),
          Wire(Up, Destroyed, false, None, true), Wire(Up, Absent, true, None, false)),
     Made(c, Peer(WaitCea, true, Two(Error, Cer)), Peer(WaitCea, true, Nothing),
          Wire(Up, Destroyed, false, None, true), Wire(Up, Absent, false, None, false)),
     Made(c, Peer(Closed, true, Nothing), Peer(WaitCea, true, Nothing), GONE, Wire(Up, Destroyed, false, None, false)),
     Made(c, Peer(Closed, true, Nothing), Peer(WaitCea, true, One(Error)),
          GONE, Wire(Up, Destroyed, false, None, true)),
     Made(c, Peer(Closed, true, Nothing), Peer(Closed, true, Nothing), GONE, GONE)]
  }

  lemma DisturbedLeads(c: bool, won: Pair<bool>, i: nat)
    requires won.At(c) && !won.At(!c) && i < 13
    ensures Leads(DisturbedStates(c)[i], DisturbedSteps(c)[i], DisturbedStates(c)[i + 1], won)
  {
  }

  lemma TenthIsUntimely(c: bool)
    ensures Untimely(DisturbedStates(c)[10], DisturbedSteps(c)[10])
  {
  }

  /** So an election with different identities can end with both peers in CLOSED. */
  lemma ErrorsCanDisturb(ids: Pair<seq<Byte>>, c: bool) returns (ns: seq<Net>, steps: seq<Step>)
    requires Won(ids.At(c), ids.At(!c))
    ensures ElectionRun(ns, steps, Verdicts(ids)) && Disturbed(ns, steps, |steps|)
    ensures ns[|steps|] == FAILED && Quiet(FAILED)
  {
    ns, steps := DisturbedStates(c), DisturbedSteps(c);
    ExactlyOneWins(ids.yes, ids.no);
    var won := Verdicts(ids);
    forall i | 0 <= i < |steps| ensures Leads(ns[i], steps[i], ns[i + 1], won) {
      DisturbedLeads(c, won, i);
    }
    LeadsMakeARun(ns, steps, won);
    TenthIsUntimely(c);
    FailedIsQuiet();
  }

  // ---- Equal identities ----

  ghost function EqualSteps(): seq<Step> {
    [Attempt(true), Established(true), CerArrives(true), Attempt(false), Established(false), CerArrives(false),
     Handle(true), CeaArrives(false), CloseArrives(false), Handle(false), CeaArrives(true), CloseArrives(true),
     Handle(true), Handle(true), Handle(false), Handle(false)]
  }

  ghost function EqualStates(): seq<Net> {
    [Made(true, Peer(Closed, false, Nothing), Peer(Closed, false, Nothing), NO_WIRE, NO_WIRE),
     Made(true, Peer(WaitCnxAck, true, Nothing), Peer(Closed, false, Nothing), NO_WIRE, NO_WIRE),
     Made(true, Peer(WaitCea, true, Nothing), Peer(Closed, false, Nothing),
          Wire(Up, Absent, true, None, false), NO_WIRE),
     Made(true, Peer(WaitCea, true, Nothing), Peer(Closed, false, One(Cer)),
          Wire(Up, Absent, false, None, false), NO_WIRE),
     Made(true, Peer(WaitCea, true, Nothing), Peer(WaitCnxAck, true, One(Cer)),
          Wire(Up, Absent, false, None, false), NO_WIRE),
     Made(true, Peer(WaitCea, true, Nothing), Peer(WaitCea, true, One(Cer)),
          Wire(Up, Absent, false, None, false), Wire(Up, Absent, true, None, false)),
     Made(true, Peer(WaitCea, true, One(Cer)), Peer(WaitCea, true, One(Cer)),
          Wire(Up, Absent, false, None, false), Wire(Up, Absent, false, None, false)),
     Made(true, Peer(WaitCea, true, Nothing), Peer(WaitCea, true, One(Cer)),
          Wire(Up, Absent, false, None, false), Wire(Up, Destroyed, false, Some(ElectionLost), false)),
     Made(true, Peer(WaitCea, true, Nothing), Peer(WaitCea, true, Two(Cer, LOST)),
          Wire(Up, Absent, false, None, false), Wire(Up, Destroyed, false, None, false)),
     Made(true, Peer(WaitCea, true, Nothing), Peer(WaitCea, true, Three(Cer, LOST, Error)),
          Wire(Up, Absent, false, None, false), Wire(Up, Destroyed, false, None, true)),
     Made(true, Peer(WaitCea, true, Nothing), Peer(WaitCea, true, Two(LOST, Error)),
          Wire(Up, Destroyed, false, Some(ElectionLost), false), Wire(Up, Destroyed, false, None, true)),
     Made(true, Peer(WaitCea, true, One(LOST)), Peer(WaitCea, true, Two(LOST, Error)),
          Wire(Up, Destroyed, false, None, false), Wire(Up, Destroyed, false, None, true)),
     Made(true, Peer(WaitCea, true, Two(LOST, Error)), Peer(WaitCea, true, Two(LOST, Error)),
          Wire(Up, Destroyed, false, None, true), Wire(Up, Destroyed, false, None, true)),
     Made(true, Peer(WaitCea, true, One(Error)), Peer(WaitCea, true, Two(LOST, Error)),
          Wire(Up, Destroyed, false, None, true), Wire(Up, Destroyed, false, None, true)),
     Made(true, Peer(Closed, true, Nothing), Peer(WaitCea, true, Two(LOST, Error)),
          GONE, Wire(Up, Destroyed, false, None, true)),
     Made(true, Peer(Closed, true, Nothing), Peer(WaitCea, true, One(Error)),
          GONE, Wire(Up, Destroyed, false, None, true)),
     Made(true, Peer(Closed, true, Nothing), Peer(Closed, true, Nothing), GONE, GONE)]
  }

  lemma EqualLeads(won: Pair<bool>, i: nat)
    requires !won.yes && !won.no && i < 16
    ensures Leads(EqualStates()[i], EqualSteps()[i], EqualStates()[i + 1], won)
  {
  }

  lemma EqualTimely(i: nat)
    requires i < 16
    ensures !Untimely(EqualStates()[i], EqualSteps()[i])
  {
  }

  /**
   The condition of the agreement is needed: with identities that only differ by case, each peer refuses the
   connection of the other, and without any untimely error both are back in CLOSED.
   */
  lemma EqualIdsCanFail(ids: Pair<seq<Byte>>) returns (ns: seq<Net>, steps: seq<Step>)
    requires AllLower(ids.yes) == AllLower(ids.no)
    ensures ElectionRun(ns, steps, Verdicts(ids)) && !Disturbed(ns, steps, |steps|)
    ensures ns[|steps|] == FAILED && Quiet(FAILED)
  {
    ns, steps := EqualStates(), EqualSteps();
    ExactlyOneWins(ids.yes, ids.no);
    var won := Verdicts(ids);
    forall i | 0 <= i < |steps| ensures Leads(ns[i], steps[i], ns[i + 1], won) && !Untimely(ns[i], steps[i]) {
      EqualLeads(won, i);
      EqualTimely(i);
    }
    LeadsMakeARun(ns, steps, won);
    FailedIsQuiet();
  }
}
