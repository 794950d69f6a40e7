/**
 Diameter messages over a byte stream (cnxctx.c): the header of section 3 of RFC 6733 begins with a version and a
 24-bit length, and the receiver rebuilds the message boundaries from it, however the bytes are cut into reads
 and writes.
 */
module Framing {

  import opened Bytes

  const VERSION := 1
  const MSG_SIZE_MAX := 65535
  const HEADER := 4

  function Length(h: seq<Byte>): nat
    requires |h| >= HEADER
  {
    0x10000 * (h[1] as int) + 0x100 * (h[2] as int) + h[3]
  }

  predicate Suspect(h: seq<Byte>)
    requires |h| >= HEADER
  {
    h[0] != VERSION || Length(h) > MSG_SIZE_MAX
  }

  /** What the receiver takes from the stream for a header: never less than the header itself. */
  function Taken(h: seq<Byte>): nat
    requires |h| >= HEADER
  {
    if Length(h) < HEADER then HEADER else Length(h)
  }

  /** The messages in a stream of bytes, up to its end or to the first suspect header. */
  function Frames(s: seq<Byte>): seq<seq<Byte>> {
    if |s| < HEADER || Suspect(s) || |s| < Length(s) then []
    else [s[..Length(s)]] + Frames(s[Taken(s)..])
  }

  /** Without cc_loop, the receiver stops after one message. */
  function Received(s: seq<Byte>, loop: bool): seq<seq<Byte>> {
    if loop || Frames(s) == [] then Frames(s) else [Frames(s)[0]]
  }

  /** How a receiver stops: it marks an error for a suspect header, unless the stream ends first. */
  datatype Stop = EndOfStream | Marked

  /** The receiver without TLS needs a single byte to refuse a version, the one with TLS the whole header. */
  function Ending(s: seq<Byte>, tls: bool): Stop {
    if |s| < HEADER then (if !tls && s != [] && s[0] != VERSION then Marked else EndOfStream)
    else if Suspect(s) then Marked
    else if |s| < Length(s) then EndOfStream
    else Ending(s[Taken(s)..], tls)
  }

  /** From `s` to `t` the first message of the stream was taken. */
  ghost predicate Advanced(s: seq<Byte>, t: seq<Byte>, tls: bool) {
    Frames(s) != [] && Frames(t) == Frames(s)[1..] && Ending(t, tls) == Ending(s, tls) && |t| < |s|
  }

  /** A message that can be framed: right version, and a length field that tells its size. */
  predicate WellFormed(m: seq<Byte>) {
    HEADER <= |m| <= MSG_SIZE_MAX && m[0] == VERSION && Length(m) == |m|
  }

  predicate AllWellFormed(ms: seq<seq<Byte>>) {
    ms != [] ==> WellFormed(ms[0]) && AllWellFormed(ms[1..])
  }

  function Concat(ms: seq<seq<Byte>>): seq<Byte> {
    if ms == [] then [] else ms[0] + Concat(ms[1..])
  }

  // ---- The framing function ----

  /** A message at the start of the stream is the first one delivered; what follows is framed on its own. */
  lemma FirstFrame(m: seq<Byte>, tail: seq<Byte>)
    requires WellFormed(m)
    ensures Frames(m + tail) == [m] + Frames(tail)
  {
  }

  /** Framing inverts concatenation. */
  lemma {:induction false} FramesOfConcat(ms: seq<seq<Byte>>)
    requires AllWellFormed(ms)
    ensures Frames(Concat(ms)) == ms
  {
    if ms != [] {
      FramesOfConcat(ms[1..]);
      FirstFrame(ms[0], Concat(ms[1..]));
    }
  }

  /** The length is the number whose three octets, highest first, follow the version. */
  lemma LengthOfOctets(h: seq<Byte>, n: nat)
    requires |h| >= 4 && n < 0x100_0000
    requires h[1] == n / 0x1_0000 && h[2] == n / 0x100 % 0x100 && h[3] == n % 0x100
    ensures Length(h) == n
  {
  }

  /** A message of version 1, of at most 65535 octets, with its own size in octets 1 to 3. */
  predicate Sized(m: seq<Byte>) {
    && 4 <= |m| <= 65535 && m[0] == 1
    && m[1] == |m| / 0x1_0000 && m[2] == |m| / 0x100 % 0x100 && m[3] == |m| % 0x100
  }

  /** These are exactly the messages that can be framed. */
  lemma SizedIsWellFormed(m: seq<Byte>)
    ensures Sized(m) <==> WellFormed(m)
  {
    if Sized(m) {
      LengthOfOctets(m, |m|);
    }
  }

  /** A header is refused exactly if its version is not 1 or its length takes more than two octets. */
  lemma SuspectExactlyWhen(h: seq<Byte>)
    requires |h| >= 4
    ensures Suspect(h) <==> h[0] != 1 || h[1] != 0
  {
  }

  /** Framing inverts the concatenation of any such messages. */
  lemma {:induction false} FramesOfSized(ms: seq<seq<Byte>>)
    requires forall m :: m in ms ==> Sized(m)
    ensures Frames(Concat(ms)) == ms
  {
    SizedAreWellFormed(ms);
    FramesOfConcat(ms);
  }

  lemma {:induction false} SizedAreWellFormed(ms: seq<seq<Byte>>)
    requires forall m :: m in ms ==> Sized(m)
    ensures AllWellFormed(ms)
  {
    if ms != [] {
      SizedIsWellFormed(ms[0]);
      SizedAreWellFormed(ms[1..]);
    }
  }

  /** A message of which a part is missing is not delivered, and nothing is made of the part. */
  lemma PartialMessageIsHeld(m: seq<Byte>, k: nat)
    requires WellFormed(m) && k < |m|
    ensures Frames(m[..k]) == [] && Ending(m[..k], true) == Ending(m[..k], false) == EndOfStream
  {
  }

  /** How many of the messages end within the first k bytes of their concatenation. */
  function Complete(ms: seq<seq<Byte>>, k: nat): (n: nat)
    ensures n <= |ms|
  {
    if ms == [] || k < |ms[0]| then 0 else 1 + Complete(ms[1..], k - |ms[0]|)
  }

  lemma {:induction false} CompleteMeaning(ms: seq<seq<Byte>>, k: nat)
    ensures var n := Complete(ms, k);
            |Concat(ms[..n])| <= k && (n < |ms| ==> k < |Concat(ms[..n + 1])|)
  {
    if ms != [] {
      if k < |ms[0]| {
        assert ms[..1] == [ms[0]];
        assert Concat([ms[0]]) == ms[0] + Concat([]);
      } else {
        var n := Complete(ms[1..], k - |ms[0]|);
        CompleteMeaning(ms[1..], k - |ms[0]|);
        assert ms[..n + 1] == [ms[0]] + ms[1..][..n];
        assert n + 1 < |ms| ==> ms[..n + 2] == [ms[0]] + ms[1..][..n + 1];
      }
    }
  }

  /**
   At any moment, whatever part of the stream has arrived: exactly the messages that are complete have been
   delivered.
   */
  lemma {:induction false} DeliveredSoFar(ms: seq<seq<Byte>>, k: nat)
    requires AllWellFormed(ms) && k <= |Concat(ms)|
    ensures Frames(Concat(ms)[..k]) == ms[..Complete(ms, k)]
  {
    if ms != [] {
      var m, rest := ms[0], Concat(ms[1..]);
      if k < |m| {
        assert Concat(ms)[..k] == m[..k];
        PartialMessageIsHeld(m, k);
      } else {
        DeliveredSoFar(ms[1..], k - |m|);
        FirstFrame(m, rest[..k - |m|]);
        assert Concat(ms)[..k] == m + rest[..k - |m|];
        assert ms[..Complete(ms, k)] == [m] + ms[1..][..Complete(ms[1..], k - |m|)];
      }
    }
  }

  lemma PrefixDelivered(ms: seq<seq<Byte>>, s: seq<Byte>)
    requires AllWellFormed(ms) && s <= Concat(ms)
    ensures Frames(s) <= ms && (s == Concat(ms) ==> Frames(s) == ms)
  {
    assert s == Concat(ms)[..|s|];
    DeliveredSoFar(ms, |s|);
    FramesOfConcat(ms);
  }

  /** What is left of the stream when no further message can be taken. */
  function Rest(s: seq<Byte>): seq<Byte> {
    if |s| < HEADER || Suspect(s) || |s| < Length(s) then s else Rest(s[Taken(s)..])
  }

  /** The two receivers only differ on a stream that ends within a header of the wrong version. */
  lemma {:induction false} EndingsDifferExactlyWhen(s: seq<Byte>)
    ensures Ending(s, true) != Ending(s, false) <==> 0 < |Rest(s)| < HEADER && Rest(s)[0] != VERSION
  {
    if !(|s| < HEADER || Suspect(s) || |s| < Length(s)) {
      EndingsDifferExactlyWhen(s[Taken(s)..]);
    }
  }

  /** PMDL_PADDED: where the data kept behind a message of this length begin, `align` being their alignment. */
  function Padded(length: nat, align: nat): int
    requires align > 0
  {
    (length + align - 1) / align * align
  }

  /**
   The four bytes of the header are copied before the length is known to cover them. They end up before the data
   kept behind the message exactly if the length is not 0; for a message that can be framed, within the message.
   */
  lemma HeaderFitsExactlyWhen(s: seq<Byte>, align: nat)
    requires |s| >= HEADER && align >= HEADER
    ensures HEADER <= Padded(Length(s), align) <==> Length(s) > 0
    ensures WellFormed(s) ==> HEADER <= Length(s)
  {
  }

  // ---- The connection ----

  class Connection {
    var incoming: seq<Byte>          // what will still be received before the connection ends
    var outgoing: seq<Byte>          // what was sent
    var delivered: seq<seq<Byte>>    // the FDEVP_CNX_MSG_RECV events
    var error: bool                  // CC_STATUS_ERROR

    constructor (incoming: seq<Byte>)
      ensures this.incoming == incoming && outgoing == [] && delivered == [] && !error
    {
      this.incoming, outgoing, delivered, error := incoming, [], [], false;
    }

    /** recv: some of the bytes, at least one unless the connection has ended. */
    method Recv(buf: array<Byte>, off: nat, n: nat) returns (ret: nat)
      requires off + n <= buf.Length && n > 0
      modifies `incoming, buf
      ensures ret <= n && ret <= |old(incoming)| && (ret == 0 <==> old(incoming) == [])
      ensures incoming == old(incoming)[ret..]
      ensures buf[..off] == old(buf[..off]) && buf[off..off + ret] == old(incoming)[..ret]
    {
      if incoming == [] {
        return 0;
      }
      ret :| 1 <= ret <= n && ret <= |incoming|;
      forall i | 0 <= i < ret {
        buf[off + i] := incoming[i];
      }
      incoming := incoming[ret..];
    }

    /** Reads until `buf` is full: the loop of both receivers for the body of a message. */
    method Fill(buf: array<Byte>, have: nat) returns (ok: bool)
      requires have <= buf.Length
      modifies `incoming, buf
      ensures ok == (|old(incoming)| >= buf.Length - have)
      ensures ok ==> && buf[..] == old(buf[..have]) + old(incoming)[..buf.Length - have]
                     && incoming == old(incoming)[buf.Length - have..]
    {
      var received := have;
      ghost var s, b := incoming, buf[..have];
      while received < buf.Length
        invariant have <= received <= buf.Length && received - have <= |s|
        invariant incoming == s[received - have..]
        invariant buf[..received] == b + s[..received - have]
      {
        ghost var before := buf[..received];
        var ret := Recv(buf, received, buf.Length - received);
        if ret == 0 {
          return false;
        }
        assert buf[..received + ret] == before + buf[received..received + ret];
        received := received + ret;
      }
      assert buf[..] == buf[..received];
      ok := true;
    }

    /** The header loop of rcvthr_notls_tcp: a wrong version is refused as soon as its byte is there. */
    method ReadHeader(header: array<Byte>) returns (received: nat, ok: bool)
      requires header.Length == HEADER
      modifies `incoming, header
      ensures var s := old(incoming);
              && received <= HEADER && received <= |s| && header[..received] == s[..received]
              && incoming == s[received..]
              && (ok ==> received > 0 && (received == HEADER || s[0] != VERSION))
              && (!ok ==> |s| < HEADER && (s == [] || s[0] == VERSION))
    {
      received := 0;
      ghost var s := incoming;
      while true
        invariant received < HEADER && received <= |s| && header[..received] == s[..received]
        invariant incoming == s[received..] && (received > 0 ==> s[0] == VERSION)
        decreases HEADER - received
      {
        ghost var t := incoming;
        var ret := Recv(header, received, HEADER - received);
        if ret == 0 {
          return received, false;
        }
        assert s[..received + ret] == s[..received] + t[..ret];
        assert header[..received + ret] == s[..received] + header[received..received + ret];
        received := received + ret;
        assert header[0] == header[..received][0] == s[0];
        if header[0] != VERSION || received == HEADER {
          return received, true;
        }
      }
    }

    /**
     The rest of both receivers, once there is a header and its length was checked: the message is completed. The
     buffer has room for the header even if the length does not: HeaderFitsExactlyWhen says what is there.
     */
    method ReadBody(header: array<Byte>) returns (ok: bool)
      requires header.Length == HEADER && !Suspect(header[..])
      modifies `incoming, `delivered
      ensures var s := old(header[..] + incoming);
              if |s| < Length(s) then !ok && delivered == old(delivered)
              else ok && delivered == old(delivered) + [s[..Length(s)]] && incoming == s[Taken(s)..]
    {
      ghost var s := header[..] + incoming;
      var length := Length(header[..]);
      var buffer := new Byte[if length < HEADER then HEADER else length](_ => 0);
      forall i | 0 <= i < HEADER {
        buffer[i] := header[i];
      }
      assert buffer[..HEADER] == header[..];
      ok := Fill(buffer, HEADER);
      if ok {
        assert buffer[..] == s[..Taken(s)];
        assert buffer[..length] == s[..length];
        delivered := delivered + [buffer[..length]];
      }
    }

    /** One round of rcvthr_notls_tcp: a message is delivered, or the receiver stops. */
    method RoundClear() returns (more: bool)
      modifies `incoming, `delivered, `error
      ensures more ==> Advanced(old(incoming), incoming, false) && error == old(error)
      ensures more ==> delivered == old(delivered) + [Frames(old(incoming))[0]]
      ensures !more ==> Frames(old(incoming)) == [] && delivered == old(delivered)
      ensures !more ==> error == (old(error) || Ending(old(incoming), false) == Marked)
    {
      ghost var s := incoming;
      var header := new Byte[HEADER](_ => 0);
      var received, ok := ReadHeader(header);
      if !ok {
        return false;
      }
      assert header[0] == header[..received][0] == s[0];
      if header[0] != VERSION {
        error := true;
        return false;
      }
      assert header[..] == header[..received] == s[..HEADER];
      if Length(header[..]) > MSG_SIZE_MAX {
        error := true;
        return false;
      }
      assert s == header[..] + incoming;
      more := ReadBody(header);
    }

    /** One round of fd_tls_rcvthr_core: the header is always read in full first. */
    method RoundTls() returns (more: bool)
      modifies `incoming, `delivered, `error
      ensures more ==> Advanced(old(incoming), incoming, true) && error == old(error)
      ensures more ==> delivered == old(delivered) + [Frames(old(incoming))[0]]
      ensures !more ==> Frames(old(incoming)) == [] && delivered == old(delivered)
      ensures !more ==> error == (old(error) || Ending(old(incoming), true) == Marked)
    {
      ghost var s := incoming;
      var header := new Byte[HEADER](_ => 0);
      var ok := Fill(header, 0);
      if !ok {
        return false;
      }
      assert header[..] == s[..HEADER];
      if header[0] != VERSION || Length(header[..]) > MSG_SIZE_MAX {
        error := true;
        return false;
      }
      assert s == header[..] + incoming;
      more := ReadBody(header);
    }

    /** rcvthr_notls_tcp with cc_loop set. */
    method ReceiveAllClear()
      modifies `incoming, `delivered, `error
      ensures delivered == old(delivered) + Frames(old(incoming))
      ensures error == (old(error) || Ending(old(incoming), false) == Marked)
    {
      ghost var s := incoming;
      var more := true;
      while more
        invariant more ==> old(delivered) + Frames(s) == delivered + Frames(incoming)
        invariant more ==> Ending(s, false) == Ending(incoming, false) && error == old(error)
        invariant !more ==> old(delivered) + Frames(s) == delivered
        invariant !more ==> error == (old(error) || Ending(s, false) == Marked)
        decreases more, |incoming|
      {
        more := RoundClear();
      }
    }

    /** rcvthr_notls_tcp: it reads one message only if cc_loop is not set. */
    method ReceiveClear(loop: bool)
      modifies `incoming, `delivered, `error
      ensures delivered == old(delivered) + Received(old(incoming), loop)
      ensures error == (old(error) || (Ending(old(incoming), false) == Marked && (loop || Frames(old(incoming)) == [])))
    {
      if loop {
        ReceiveAllClear();
      } else {
        var _ := RoundClear();
      }
    }

    /** fd_tls_rcvthr_core. */
    method ReceiveTls()
      modifies `incoming, `delivered, `error
      ensures delivered == old(delivered) + Frames(old(incoming))
      ensures error == (old(error) || Ending(old(incoming), true) == Marked)
    {
      ghost var s := incoming;
      var more := true;
      while more
        invariant more ==> old(delivered) + Frames(s) == delivered + Frames(incoming)
        invariant more ==> Ending(s, true) == Ending(incoming, true) && error == old(error)
        invariant !more ==> old(delivered) + Frames(s) == delivered
        invariant !more ==> error == (old(error) || Ending(s, true) == Marked)
        decreases more, |incoming|
      {
        more := RoundTls();
      }
    }

    /** writev: some of the bytes, at least one, or an error. */
    method Sendv(buf: array<Byte>, off: nat, n: nat) returns (ret: int)
      requires off + n <= buf.Length && n > 0
      modifies `outgoing, `error
      ensures ret <= n
      ensures ret <= 0 ==> outgoing == old(outgoing) && error
      ensures ret > 0 ==> outgoing == old(outgoing) + buf[off..off + ret] && error == old(error)
    {
      ret :| ret <= n;
      if ret <= 0 {
        error := true;
      } else {
        outgoing := outgoing + buf[off..off + ret];
      }
    }

    /** send_simple: the whole message is sent, or a strict prefix of it and the connection is in error. */
    method SendSimple(buf: array<Byte>) returns (ok: bool)
      requires buf.Length > 0
      modifies `outgoing, `error
      ensures ok ==> outgoing == old(outgoing) + buf[..] && error == old(error)
      ensures !ok ==> error && exists k :: 0 <= k < buf.Length && outgoing == old(outgoing) + buf[..k]
    {
      var sent := 0;
      while true
        invariant 0 <= sent < buf.Length && outgoing == old(outgoing) + buf[..sent] && error == old(error)
        decreases buf.Length - sent
      {
        var ret := Sendv(buf, sent, buf.Length - sent);
        if ret <= 0 {
          assert outgoing == old(outgoing) + buf[..sent];
          return false;
        }
        assert buf[..sent + ret] == buf[..sent] + buf[sent..sent + ret];
        sent := sent + ret;
        if sent == buf.Length {
          assert buf[..sent] == buf[..];
          return true;
        }
      }
    }
  }

  /** Sending a list of messages one after the other, until an error. */
  method SendAll(c: Connection, ms: seq<seq<Byte>>) returns (ok: bool)
    requires AllWellFormed(ms)
    modifies c`outgoing, c`error
    ensures ok ==> c.outgoing == old(c.outgoing) + Concat(ms) && c.error == old(c.error)
    ensures !ok ==> c.error && old(c.outgoing) <= c.outgoing <= old(c.outgoing) + Concat(ms)
  {
    var i := 0;
    while i < |ms|
      invariant 0 <= i <= |ms| && c.outgoing + Concat(ms[i..]) == old(c.outgoing) + Concat(ms)
      invariant old(c.outgoing) <= c.outgoing && AllWellFormed(ms[i..]) && c.error == old(c.error)
    {
      assert ms[i..][1..] == ms[i + 1..];
      var m := ms[i];
      var buf := new Byte[|m|](j requires 0 <= j < |m| => m[j]);
      assert buf[..] == m;
      assert Concat(ms[i..]) == m + Concat(ms[i + 1..]);
      ok := c.SendSimple(buf);
      if !ok {
        return;
      }
      i := i + 1;
    }
    ok := true;
  }

  /**
   From one side to the other: with any cuts in the writes and in the reads, in the clear or with TLS, what is
   delivered is exactly what was sent, in order.
   */
  method Transfer(ms: seq<seq<Byte>>, tls: bool) returns (ok: bool, got: seq<seq<Byte>>)
    requires AllWellFormed(ms)
    ensures ok ==> got == ms
    ensures !ok ==> got <= ms
  {
    var sender := new Connection([]);
    ok := SendAll(sender, ms);
    assert [] + Concat(ms) == Concat(ms);
    var s := sender.outgoing;
    var receiver := new Connection(s);
    if tls {
      receiver.ReceiveTls();
    } else {
      receiver.ReceiveClear(true);
    }
    got := receiver.delivered;
    assert got == Frames(s);
    PrefixDelivered(ms, s);
  }
}
