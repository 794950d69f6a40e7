/** The out thread of a peer (p_out.c) over whole runs: it sends, or after a failure it empties the queue. */
module PeerOut {

  import opened SentRequests
  import opened PeerMachine
  import opened PeerInvariants
  import opened PeerConservation
  import opened PeerTable

  /** A turn leaves the out thread as it is, stops it, or starts it. */
  ghost predicate OutTurned(c: Control, r: Control) {
    r.out == c.out || r.out == Stopped || (c.out == Stopped && r.out == Sending)
  }

  lemma CeaTurnsOut(c: Control, cea: Cea)
    requires Served(c) && c.state == WaitCea
    ensures OutTurned(c, OnCea(c, cea))
  {
  }

  lemma CommandTurnsOut(c: Control, request: bool, cmd: Command, pending: bool)
    requires Served(c)
    ensures OutTurned(c, OnCommand(c, request, cmd, pending))
  {
    if cmd.CapabilitiesExchange? && !request && c.state == WaitCea {
      CeaTurnsOut(c, cmd.cea);
    }
  }

  lemma OpeningTurnsOut(c: Control)
    requires Served(c) && c.state == OpenNew
    ensures Served(Opened(c)) && c.out == Stopped && Opened(c).out != Purging
  {
  }

  lemma MessageTurnsOut(c: Control, m: Received, l: Lookup)
    requires Served(c)
    ensures OutTurned(c, OnMessage(c, m, l))
  {
    if m.Parsed? && c.state != Closed && (m.request || l.known) {
      var fetched := if m.request then c else c.(todo := Then(c.todo, Take(m.hbh)));
      if c.state == OpenNew {
        OpeningTurnsOut(fetched);
        if m.parsing.Understood? {
          CommandTurnsOut(Opened(fetched), m.request, m.parsing.c, l.pending);
        }
      } else if m.parsing.Understood? {
        CommandTurnsOut(fetched, m.request, m.parsing.c, l.pending);
      }
    }
  }

  lemma TurnTurnsOut(c: Control, e: Event, l: Lookup)
    requires Served(c)
    ensures OutTurned(c, Expected(c, e, l))
  {
    if e.MsgRecv? {
      MessageTurnsOut(c, e.m, l);
    }
  }

  /** One step of a run, as far as the out thread is concerned. */
  ghost predicate OutMove(out: OutThread, s: Step, out': OutThread) {
    && (s.OutSends? ==> out == Sending)
    && (s.OutPurges? ==> out == Purging)
    && (out == Sending && out' == Purging ==> s.OutSends?)
    && (out == Purging && out' != Purging ==> out' == Stopped)
    && (out == Stopped ==> out' != Purging)
  }

  lemma StepMovesOut(p: Peer, s: Step)
    requires Served(p.c) && Enabled(p, s)
    ensures OutMove(p.c.out, s, After(p, s).c.out)
  {
    if s.Psm? {
      TurnFollowsTable(p.c, s.e, LookedUp(p.ms, s.e));
      TurnTurnsOut(p.c, s.e, LookedUp(p.ms, s.e));
    } else {
      assert After(p, s).c.out == Decided(p, s).out;
    }
  }

  ghost predicate OutMoves(outs: seq<OutThread>, steps: seq<Step>) {
    && |outs| == |steps| + 1 && outs[0] == Stopped
    && forall i :: 0 <= i < |steps| ==> OutMove(outs[i], steps[i], outs[i + 1])
  }

  /** The out thread at each moment of a run. */
  ghost function Outs(ps: seq<Peer>): (outs: seq<OutThread>)
    ensures |outs| == |ps| && forall i :: 0 <= i < |ps| ==> outs[i] == ps[i].c.out
  {
    seq(|ps|, i requires 0 <= i < |ps| => ps[i].c.out)
  }

  lemma RunMovesOut(ps: seq<Peer>, steps: seq<Step>)
    requires PeerRun(ps, steps)
    ensures OutMoves(Outs(ps), steps)
  {
    forall i | 0 <= i < |steps| ensures OutMove(Outs(ps)[i], steps[i], Outs(ps)[i + 1]) {
      RunKeeps(ps, steps, i);
      StepMovesOut(ps[i], steps[i]);
    }
  }

  /** The send of step j failed, and since then the out thread was not stopped. */
  ghost predicate PurgingSince(outs: seq<OutThread>, steps: seq<Step>, j: nat, k: nat) {
    && j < k < |outs| && j < |steps| && steps[j].OutSends? && outs[j] == Sending
    && forall i :: j < i <= k ==> outs[i] == Purging
  }

  lemma {:induction false} PurgingHasBegun(outs: seq<OutThread>, steps: seq<Step>, k: nat) returns (j: nat)
    requires OutMoves(outs, steps) && k <= |steps| && outs[k] == Purging
    ensures PurgingSince(outs, steps, j, k)
  {
    assert k > 0 && OutMove(outs[k - 1], steps[k - 1], outs[k]);
    if outs[k - 1] == Purging {
      j := PurgingHasBegun(outs, steps, k - 1);
    } else {
      j := k - 1;
    }
  }

  /**
   In every run: the out thread sets a message aside only after a send of its own that failed and without having been
   stopped since; and from that failure on it sends nothing until it is stopped.
   */
  lemma PurgesOnlyAfterFailure(ps: seq<Peer>, steps: seq<Step>, k: nat) returns (j: nat)
    requires PeerRun(ps, steps) && k < |steps| && steps[k].OutPurges?
    ensures PurgingSince(Outs(ps), steps, j, k) && forall i :: j < i <= k ==> !steps[i].OutSends?
  {
    RunMovesOut(ps, steps);
    var outs := Outs(ps);
    assert OutMove(outs[k], steps[k], outs[k + 1]);
    j := PurgingHasBegun(outs, steps, k);
    forall i | j < i <= k ensures !steps[i].OutSends? {
      assert OutMove(outs[i], steps[i], outs[i + 1]);
    }
  }

  /**
   While there are messages the out thread goes on, one at a time: sending takes the first one off the queue, and so
   does purging; nobody else does either.
   */
  lemma OutThreadGoesOn(p: Peer, ok: bool)
    ensures Enabled(p, OutSends(ok)) <==> p.c.out == Sending && p.ms.tosend != []
    ensures Enabled(p, OutPurges) <==> p.c.out == Purging && p.ms.tosend != []
    ensures Enabled(p, OutSends(ok)) && p.c.todo == Nothing ==> After(p, OutSends(ok)).ms.tosend == p.ms.tosend[1..]
    ensures Enabled(p, OutPurges) && p.c.todo == Nothing ==>
              After(p, OutPurges).ms.tosend == p.ms.tosend[1..] && After(p, OutPurges).c == p.c
  {
    OneWork(p.ms, SendFirst);
    OneWork(p.ms, SetAside);
  }

  /** The state machine handles any event as long as its thread is there: in every state but NEW and ZOMBIE. */
  lemma EventsAreHandled(p: Peer, e: Event)
    ensures Enabled(p, Psm(e)) <==> p.c.state !in {New, Zombie}
    ensures Enabled(p, Start) <==> p.c.state == New
    ensures Enabled(p, Restart) <==> p.c.state == Zombie
  {
  }
}
