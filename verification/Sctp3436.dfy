/**
 TLS over the streams of one SCTP association (sctp3436.c): a demultiplexer sorts what it receives into one queue
 per stream, and GnuTLS pulls the bytes of each stream from its queue with buffers of any size.
 */
module Sctp3436 {

  import opened Bytes
  import opened Lists

  datatype Event = Data(bytes: seq<Byte>) | ConnectionError

  /** The message being read: a buffer and how much of it was already given out. */
  datatype Partial = Partial(buf: seq<Byte>, offset: nat)

  datatype Stream = Stream(raw: seq<Event>, partial: Option<Partial>)

  ghost predicate ValidStream(s: Stream) {
    s.partial.Some? ==> s.partial.value.offset <= |s.partial.value.buf|
  }

  datatype PullResult = Got(bytes: seq<Byte>) | Failed | Blocked

  /** The bytes received on the stream and not pulled yet. */
  function Queued(raw: seq<Event>): seq<Byte> {
    if raw == [] then []
    else (if raw[0].Data? then raw[0].bytes else []) + Queued(raw[1..])
  }

  function Pending(s: Stream): seq<Byte>
    requires ValidStream(s)
  {
    (if s.partial.Some? then s.partial.value.buf[s.partial.value.offset..] else []) + Queued(s.raw)
  }

  /** The part of sctp3436_pull after a message is at hand. */
  function Served(s: Stream, len: nat): (Stream, PullResult)
    requires ValidStream(s) && s.partial.Some?
  {
    var p := s.partial.value;
    var left := p.buf[p.offset..];
    if |left| <= len then (s.(partial := None), Got(left))
    else (s.(partial := Some(p.(offset := p.offset + len))), Got(left[..len]))
  }

  /** sctp3436_pull; Blocked is where fd_event_get waits. */
  function Pulled(s: Stream, len: nat): (Stream, PullResult)
    requires ValidStream(s)
  {
    if s.partial.Some? then Served(s, len)
    else if s.raw == [] then (s, Blocked)
    else match s.raw[0]
      case ConnectionError => (s.(raw := s.raw[1..]), Failed)
      case Data(bytes) => Served(Stream(s.raw[1..], Some(Partial(bytes, 0))), len)
  }

  /** What is left of the message at hand, or the next one. */
  function AtHand(s: Stream): (bytes: seq<Byte>)
    requires ValidStream(s) && (s.partial.Some? || (s.raw != [] && s.raw[0].Data?))
  {
    if s.partial.Some? then s.partial.value.buf[s.partial.value.offset..] else s.raw[0].bytes
  }

  /** A pull takes as much as is asked for, or all of the message; it fails exactly if an error comes next. */
  lemma PullTakesAllItCan(s: Stream, len: nat)
    requires ValidStream(s)
    ensures var r := Pulled(s, len).1;
            && (r.Got? <==> s.partial.Some? || (s.raw != [] && s.raw[0].Data?))
            && (r.Failed? <==> s.partial.None? && s.raw != [] && s.raw[0].ConnectionError?)
            && (r.Got? ==> |r.bytes| == if len < |AtHand(s)| then len else |AtHand(s)|)
            && (r.Got? ==> r.bytes <= AtHand(s))
  {
  }

  /** A pull gives the next bytes of the stream, no more than asked for, and keeps the rest. */
  lemma PullGivesNextBytes(s: Stream, len: nat)
    requires ValidStream(s)
    ensures var (s', r) := Pulled(s, len);
            && ValidStream(s')
            && (r.Got? ==> |r.bytes| <= len && Pending(s) == r.bytes + Pending(s'))
            && (!r.Got? ==> Pending(s') == Pending(s))
  {
    if s.partial.Some? {
      ServedGivesNextBytes(s, len);
    } else if s.raw != [] && s.raw[0].Data? {
      var t := Stream(s.raw[1..], Some(Partial(s.raw[0].bytes, 0)));
      assert t.partial.value.buf[0..] == s.raw[0].bytes;
      ServedGivesNextBytes(t, len);
    }
  }

  lemma ServedGivesNextBytes(s: Stream, len: nat)
    requires ValidStream(s) && s.partial.Some?
    ensures var (s', r) := Served(s, len);
            && ValidStream(s') && r.Got? && |r.bytes| <= len && Pending(s) == r.bytes + Pending(s')
  {
  }

  /** A pull waits only when every byte received was pulled and no error is queued. */
  lemma BlocksOnlyWhenDry(s: Stream, len: nat)
    requires ValidStream(s)
    ensures Pulled(s, len).1.Blocked? <==> s.partial.None? && s.raw == []
    ensures Pulled(s, len).1.Blocked? ==> Pending(s) == []
  {
  }

  // ---- Demultiplexing ----

  datatype Packet = Packet(strid: nat, bytes: seq<Byte>)

  /** The association: its streams, and history: the packets received and the bytes pulled from each stream. */
  datatype Assoc = Assoc(streams: seq<Stream>, received: seq<Packet>, pulled: seq<seq<Byte>>)

  datatype Step =
    | Arrives(p: Packet)            // one round of demuxer
    | Ends                          // demuxer stops: every stream is told
    | Pulls(strid: nat, len: nat)   // GnuTLS reads on a stream

  function AllTold(streams: seq<Stream>): seq<Stream> {
    if streams == [] then [] else [streams[0].(raw := streams[0].raw + [ConnectionError])] + AllTold(streams[1..])
  }

  function Demuxed(streams: seq<Stream>, p: Packet): seq<Stream> {
    if p.strid < |streams| then streams[p.strid := streams[p.strid].(raw := streams[p.strid].raw + [Data(p.bytes)])]
    else streams
  }

  ghost predicate ValidAssoc(a: Assoc) {
    |a.pulled| == |a.streams| && forall i :: 0 <= i < |a.streams| ==> ValidStream(a.streams[i])
  }

  ghost predicate Enabled(a: Assoc, s: Step) {
    s.Pulls? ==> s.strid < |a.streams|
  }

  ghost function After(a: Assoc, s: Step): Assoc
    requires ValidAssoc(a) && Enabled(a, s)
  {
    match s
    case Arrives(p) => a.(streams := Demuxed(a.streams, p), received := a.received + [p])
    case Ends => a.(streams := AllTold(a.streams))
    case Pulls(i, len) =>
      var (t, r) := Pulled(a.streams[i], len);
      a.(streams := a.streams[i := t],
         pulled := if r.Got? then a.pulled[i := a.pulled[i] + r.bytes] else a.pulled)
  }

  /** What was sent on one stream, in order. */
  function OnStream(ps: seq<Packet>, strid: nat): seq<Byte> {
    if ps == [] then []
    else
      var last := ps[|ps| - 1];
      OnStream(ps[..|ps| - 1], strid) + if last.strid == strid then last.bytes else []
  }

  /** Each stream got what was sent on it: the bytes pulled, then those still pending. */
  ghost predicate Inv(a: Assoc) {
    && ValidAssoc(a)
    && forall i :: 0 <= i < |a.streams| ==> OnStream(a.received, i) == a.pulled[i] + Pending(a.streams[i])
  }

  lemma {:induction false} QueuedAppend(raw: seq<Event>, e: Event)
    ensures Queued(raw + [e]) == Queued(raw) + if e.Data? then e.bytes else []
  {
    if raw == [] {
      assert raw + [e] == [e];
    } else {
      assert (raw + [e])[1..] == raw[1..] + [e];
      QueuedAppend(raw[1..], e);
    }
  }

  lemma {:induction false} AllToldAt(streams: seq<Stream>)
    ensures |AllTold(streams)| == |streams|
    ensures forall i :: 0 <= i < |streams| ==>
              AllTold(streams)[i] == streams[i].(raw := streams[i].raw + [ConnectionError])
  {
    if streams != [] {
      AllToldAt(streams[1..]);
    }
  }

  /** When the demultiplexer stops, every stream is told, behind what it has not pulled; then no pull waits. */
  lemma EveryStreamIsTold(a: Assoc, i: nat, len: nat)
    requires ValidAssoc(a) && i < |a.streams|
    ensures var r := After(a, Ends);
            && |r.streams| == |a.streams| && r.streams[i].partial == a.streams[i].partial
            && r.streams[i].raw == a.streams[i].raw + [ConnectionError]
            && ValidStream(r.streams[i]) && !Pulled(r.streams[i], len).1.Blocked?
  {
    AllToldAt(a.streams);
  }

  lemma ArrivesKeepsInv(a: Assoc, p: Packet)
    requires Inv(a)
    ensures Inv(After(a, Arrives(p)))
  {
    var a' := After(a, Arrives(p));
    assert a'.received[..|a.received|] == a.received;
    forall i | 0 <= i < |a.streams|
      ensures ValidStream(a'.streams[i]) && OnStream(a'.received, i) == a'.pulled[i] + Pending(a'.streams[i])
    {
      QueuedAppend(a.streams[i].raw, Data(p.bytes));
    }
  }

  lemma EndsKeepsInv(a: Assoc)
    requires Inv(a)
    ensures Inv(After(a, Ends))
  {
    AllToldAt(a.streams);
    forall i | 0 <= i < |a.streams|
      ensures ValidStream(AllTold(a.streams)[i]) && Pending(AllTold(a.streams)[i]) == Pending(a.streams[i])
    {
      QueuedAppend(a.streams[i].raw, ConnectionError);
    }
  }

  lemma PullsKeepsInv(a: Assoc, i: nat, len: nat)
    requires Inv(a) && i < |a.streams|
    ensures Inv(After(a, Pulls(i, len)))
  {
    var (t, r) := Pulled(a.streams[i], len);
    var a' := After(a, Pulls(i, len));
    PullGivesNextBytes(a.streams[i], len);
    forall k | 0 <= k < |a.streams|
      ensures ValidStream(a'.streams[k]) && OnStream(a'.received, k) == a'.pulled[k] + Pending(a'.streams[k])
    {
      if k == i && r.Got? {
        assert a.pulled[i] + r.bytes + Pending(t) == a.pulled[i] + (r.bytes + Pending(t));
      }
    }
  }

  lemma StepKeepsInv(a: Assoc, s: Step)
    requires Inv(a) && Enabled(a, s)
    ensures Inv(After(a, s))
  {
    match s
    case Arrives(p) => ArrivesKeepsInv(a, p);
    case Ends => EndsKeepsInv(a);
    case Pulls(i, len) => PullsKeepsInv(a, i, len);
  }

  ghost predicate AssocRun(assocs: seq<Assoc>, steps: seq<Step>, pairs: nat) {
    && |assocs| == |steps| + 1
    && assocs[0] == Assoc(seq(pairs, _ => Stream([], None)), [], seq(pairs, _ => []))
    && forall i :: 0 <= i < |steps| && ValidAssoc(assocs[i]) ==>
         Enabled(assocs[i], steps[i]) && assocs[i + 1] == After(assocs[i], steps[i])
  }

  lemma {:induction false} RunInv(assocs: seq<Assoc>, steps: seq<Step>, pairs: nat, k: nat)
    requires AssocRun(assocs, steps, pairs) && k <= |steps|
    ensures Inv(assocs[k]) && |assocs[k].streams| == pairs
  {
    if k > 0 {
      RunInv(assocs, steps, pairs, k - 1);
      StepKeepsInv(assocs[k - 1], steps[k - 1]);
      AllToldAt(assocs[k - 1].streams);
    }
  }

  /**
   Streams do not mix: in every interleaving of arrivals and of pulls of any size, what was pulled from a stream
   is a prefix of the concatenated messages received on that stream, and all of it if nothing is pending.
   */
  lemma PulledIsAPrefix(assocs: seq<Assoc>, steps: seq<Step>, pairs: nat, k: nat, i: nat)
    requires AssocRun(assocs, steps, pairs) && k <= |steps| && i < pairs
    ensures |assocs[k].pulled| == |assocs[k].streams| == pairs && ValidStream(assocs[k].streams[i])
    ensures assocs[k].pulled[i] <= OnStream(assocs[k].received, i)
    ensures Pending(assocs[k].streams[i]) == [] ==> assocs[k].pulled[i] == OnStream(assocs[k].received, i)
  {
    RunInv(assocs, steps, pairs, k);
  }

  // ---- The object ----

  class Reader {
    var raw: seq<Event>
    var buf: array?<Byte>
    var offset: nat

    ghost predicate Valid()
      reads this
    {
      buf != null ==> offset <= buf.Length
    }

    ghost function Snapshot(): Stream
      requires Valid()
      reads this, buf
    {
      Stream(raw, if buf == null then None else Some(Partial(buf[..], offset)))
    }

    constructor ()
      ensures Valid() && Snapshot() == Stream([], None)
    {
      raw, buf, offset := [], null, 0;
    }

    /** sctp3436_pull: what it copied is at the start of `dest`; -1 is an error, -2 a wait. */
    method Pull(dest: array<Byte>) returns (ret: int)
      requires Valid() && dest != buf
      modifies this, dest
      ensures Valid()
      ensures Snapshot() == Pulled(old(Snapshot()), dest.Length).0
      ensures match Pulled(old(Snapshot()), dest.Length).1
              case Got(bytes) => ret == |bytes| && ret <= dest.Length && dest[..ret] == bytes
              case Failed => ret == -1
              case Blocked => ret == -2
    {
      if buf == null {
        if raw == [] {
          return -2;
        }
        var e := raw[0];
        raw := raw[1..];
        if e.ConnectionError? {
          return -1;
        }
        buf := new Byte[|e.bytes|](i requires 0 <= i < |e.bytes| => e.bytes[i]);
        offset := 0;
        assert buf[..] == e.bytes;
      }
      ghost var content, left := buf[..], buf[..][offset..];
      var pulled := buf.Length - offset;
      var emptied := pulled <= dest.Length;
      if !emptied {
        pulled := dest.Length;
      }
      forall i | 0 <= i < pulled {
        dest[i] := buf[offset + i];
      }
      assert dest[..pulled] == left[..pulled] && buf[..] == content;
      if emptied {
        buf, offset := null, 0;
      } else {
        offset := offset + pulled;
      }
      ret := pulled;
    }
  }
}
