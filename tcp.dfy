/**
 * The TCP transport: a non-blocking stream socket that frames each text
 * message as a two-byte little-endian length followed by the message
 * bytes. The stream itself (accept, connect, read, write, shutdown) is the
 * operating system's; its outcomes are inputs here.
 */
module Tcp {
  import opened Wrappers

  newtype byte = x: int | 0 <= x < 256

  /** Size of the stack buffer one `update` reads into. */
  const ReadChunk: nat := 16384

  /** One past the largest length a `u16` can hold. */
  const U16Range: nat := 65536

  /** The two header bytes `write_u16::<LittleEndian>(n as u16)` produces: the cast keeps `n` modulo 2^16. */
  function LengthPrefix(n: nat): (r: seq<byte>)
    ensures |r| == 2 && HeaderLength(r) == n % U16Range
  {
    var w := n % U16Range;
    [(w % 256) as byte, (w / 256) as byte]
  }

  /** `read_u16::<LittleEndian>` on the first two bytes of a buffer. */
  function HeaderLength(buf: seq<byte>): nat
    requires |buf| >= 2
  {
    buf[0] as nat + 256 * buf[1] as nat
  }

  /** A message as it goes on the wire. */
  function Frame(m: seq<byte>): (r: seq<byte>)
    ensures |r| == |m| + 2
  {
    LengthPrefix(|m|) + m
  }

  /** Several messages framed one after the other. */
  function Frames(ms: seq<seq<byte>>): (r: seq<byte>)
  {
    if ms == [] then [] else Frame(ms[0]) + Frames(ms[1..])
  }

  /** Whether every message fits the two-byte length. */
  predicate AllShort(ms: seq<seq<byte>>) {
    forall i :: 0 <= i < |ms| ==> |ms[i]| < U16Range
  }

  /**
   * `receive` on the read buffer as a value: the message it returns and the
   * buffer it leaves. Nothing is taken until the header and the whole body
   * are buffered; a message it returns was framed with its own length and
   * is followed, unchanged, by everything after it.
   */
  function Deframe(buf: seq<byte>): (r: (Option<seq<byte>>, seq<byte>))
    ensures r.0.None? <==> |buf| < 2 || |buf| < HeaderLength(buf) + 2
    ensures r.0.None? ==> r.1 == buf
    ensures r.0.Some? ==> |r.0.value| < U16Range && buf == Frame(r.0.value) + r.1
  {
    if |buf| < 2 then (None, buf)
    else
      var len := HeaderLength(buf);
      if |buf| < len + 2 then (None, buf)
      else
        HeaderRoundTrip(buf);
        assert buf == buf[..2] + buf[2..len + 2] + buf[len + 2..];
        (Some(buf[2..len + 2]), buf[len + 2..])
  }

  /** A header read back and written again gives the same two bytes. */
  lemma HeaderRoundTrip(buf: seq<byte>)
    requires |buf| >= 2
    ensures HeaderLength(buf) < U16Range && LengthPrefix(HeaderLength(buf)) == buf[..2]
  {
    var lo, hi := buf[0] as nat, buf[1] as nat;
    SplitU16(lo, hi);
    var w := HeaderLength(buf);
    assert w == lo + 256 * hi && w % U16Range == w;
    assert LengthPrefix(w) == [(lo as byte), (hi as byte)];
    assert buf[..2] == [buf[0], buf[1]];
  }

  /** Two bytes read as a little-endian number split back into the same two bytes. */
  lemma SplitU16(lo: nat, hi: nat)
    requires lo < 256 && hi < 256
    ensures lo + 256 * hi < U16Range && (lo + 256 * hi) % 256 == lo && (lo + 256 * hi) / 256 == hi
  {
    assert 256 * hi <= 256 * 255;
    assert (lo + 256 * hi) % 256 == lo && (lo + 256 * hi) / 256 == hi;
  }

  /** `receive` called until it returns None: the messages in order and the bytes left waiting. */
  function DeframeAll(buf: seq<byte>): (r: (seq<seq<byte>>, seq<byte>))
    ensures Deframe(r.1).0.None?
    decreases |buf|
  {
    match Deframe(buf)
    case (None, _) => ([], buf)
    case (Some(m), rest) =>
      var (ms, left) := DeframeAll(rest);
      ([m] + ms, left)
  }

  /**
   * Framing round trip: whatever follows a run of framed messages, each
   * shorter than 2^16 bytes, receiving hands back exactly those messages in
   * order before anything of what follows.
   */
  lemma {:induction false} ReceivesInOrder(ms: seq<seq<byte>>, tail: seq<byte>)
    requires AllShort(ms)
    ensures DeframeAll(Frames(ms) + tail) == (ms + DeframeAll(tail).0, DeframeAll(tail).1)
    decreases |ms|
  {
    if ms != [] {
      var m, more, left := ms[0], ms[1..], DeframeAll(tail);
      var after := Frames(more) + tail;
      ShortTail(ms);
      ReceivesInOrder(more, tail);
      FramesCons(ms, tail);
      ReceiveFront(m, after);
      Regroup(ms, left.0);
    } else {
      assert Frames(ms) + tail == tail && ms + DeframeAll(tail).0 == DeframeAll(tail).0;
    }
  }

  /** The messages after the first are short too. */
  lemma ShortTail(ms: seq<seq<byte>>)
    requires ms != [] && AllShort(ms)
    ensures |ms[0]| < U16Range && AllShort(ms[1..])
  {
    forall i | 0 <= i < |ms[1..]| ensures |ms[1..][i]| < U16Range {
      assert ms[1..][i] == ms[i + 1];
    }
  }

  /** Putting the first message back in front. */
  lemma Regroup(ms: seq<seq<byte>>, rest: seq<seq<byte>>)
    requires ms != []
    ensures [ms[0]] + (ms[1..] + rest) == ms + rest
  {
    assert ms == [ms[0]] + ms[1..];
  }

  /** Framed messages followed by a tail start with the first message's frame. */
  lemma FramesCons(ms: seq<seq<byte>>, tail: seq<byte>)
    requires ms != []
    ensures Frames(ms) + tail == LengthPrefix(|ms[0]|) + (ms[0] + (Frames(ms[1..]) + tail))
  {
  }

  /** Receiving from a buffer that starts with a short frame yields its message, then whatever the rest yields. */
  lemma ReceiveFront(m: seq<byte>, after: seq<byte>)
    requires |m| < U16Range
    ensures DeframeAll(LengthPrefix(|m|) + (m + after)) == ([m] + DeframeAll(after).0, DeframeAll(after).1)
  {
    FrameAtFront(m, after);
  }

  /** A short message at the front of the buffer is what the next `receive` returns. */
  lemma FrameAtFront(m: seq<byte>, after: seq<byte>)
    requires |m| < U16Range
    ensures Deframe(LengthPrefix(|m|) + (m + after)) == (Some(m), after)
  {
    var buf := LengthPrefix(|m|) + (m + after);
    assert buf[..2] == LengthPrefix(|m|);
    assert HeaderLength(buf) == |m|;
    assert buf[2..|m| + 2] == m;
    assert buf[|m| + 2..] == after;
  }

  /** A stream of short framed messages is received whole, leaving nothing behind. */
  lemma FramesRoundTrip(ms: seq<seq<byte>>)
    requires AllShort(ms)
    ensures DeframeAll(Frames(ms)) == (ms, [])
  {
    ReceivesInOrder(ms, []);
    assert Frames(ms) + [] == Frames(ms);
    assert ms + [] == ms;
  }

  /** Until its last byte has arrived, a frame is left in the buffer and `receive` returns None. */
  lemma IncompleteFrameWaits(m: seq<byte>, k: nat)
    requires |m| < U16Range && k < |Frame(m)|
    ensures Deframe(Frame(m)[..k]) == (None, Frame(m)[..k])
  {
    if k >= 2 {
      assert Frame(m)[..k][..2] == LengthPrefix(|m|);
      assert HeaderLength(Frame(m)[..k]) == |m|;
    }
  }

  /**
   * The `as u16` cast: a message of 2^16 bytes or more is announced with its
   * length modulo 2^16, so the receiver returns only that many bytes and
   * reads the rest of the body as if it were the next frame.
   */
  lemma OversizedMessageIsCutShort(m: seq<byte>, tail: seq<byte>)
    requires |m| >= U16Range
    ensures var cut := |m| % U16Range;
      Deframe(Frame(m) + tail) == (Some(m[..cut]), m[cut..] + tail) && m[..cut] != m
  {
    var cut := |m| % U16Range;
    var buf := Frame(m) + tail;
    assert buf[..2] == LengthPrefix(|m|);
    assert HeaderLength(buf) == cut;
    assert buf[2..cut + 2] == m[..cut];
    assert buf[cut + 2..] == m[cut..] + tail;
  }

  /** What one non-blocking `read` into the 16 KiB buffer reported. */
  datatype ReadOutcome =
    | ReadBytes(bytes: seq<byte>)
    | ReadFailed(wouldBlock: bool)

  /** What one non-blocking `write` of the whole write buffer reported. */
  datatype WriteOutcome =
    | Wrote(count: nat)
    | WriteFailed

  /** `TcpSocket`: the stream's buffered bytes in each direction, and whether the peer is still there. */
  class TcpSocket {
    var writeBuffer: seq<byte>
    var readBuffer: seq<byte>
    var connected: bool

    /** A freshly accepted or connected stream. */
    constructor ()
      ensures writeBuffer == [] && readBuffer == [] && connected
    {
      writeBuffer, readBuffer, connected := [], [], true;
    }

    /**
     * `update`: the bytes read are appended to the read buffer; a read of
     * zero bytes (the peer closed) or an error other than WouldBlock marks
     * the socket disconnected; WouldBlock changes nothing.
     */
    method Update(outcome: ReadOutcome)
      requires outcome.ReadBytes? ==> |outcome.bytes| <= ReadChunk
      modifies this`readBuffer, this`connected
      ensures outcome == ReadBytes([]) ==> readBuffer == old(readBuffer) && !connected
      ensures outcome.ReadBytes? && outcome.bytes != [] ==>
        readBuffer == old(readBuffer) + outcome.bytes && connected == old(connected)
      ensures outcome == ReadFailed(false) ==> readBuffer == old(readBuffer) && !connected
      ensures outcome == ReadFailed(true) ==> readBuffer == old(readBuffer) && connected == old(connected)
    {
      match outcome
      case ReadBytes(bytes) =>
        if |bytes| == 0 {
          connected := false;
        } else {
          readBuffer := readBuffer + bytes;
        }
      case ReadFailed(wouldBlock) =>
        if !wouldBlock {
          connected := false;
        }
    }

    /** `connected`. */
    function Connected(): (r: bool)
      reads this
      ensures r == connected
    {
      connected
    }

    /**
     * `send`: the framed message goes to the back of the write buffer, then
     * the stream takes a prefix of the whole buffer (none if the write
     * failed). Nothing is lost or reordered: what was buffered plus the new
     * frame is exactly what the stream took followed by what is still
     * buffered.
     */
    method Send(message: seq<byte>, write: WriteOutcome) returns (sent: seq<byte>)
      requires write.Wrote? ==> write.count <= |writeBuffer| + |message| + 2
      modifies this`writeBuffer
      ensures old(writeBuffer) + Frame(message) == sent + writeBuffer
      ensures |sent| == (if write.Wrote? then write.count else 0)
    {
      writeBuffer := writeBuffer + LengthPrefix(|message|);
      writeBuffer := writeBuffer + message;
      sent := [];
      if write.Wrote? {
        sent := writeBuffer[..write.count];
        writeBuffer := writeBuffer[write.count..];
      }
      assert old(writeBuffer) + Frame(message) == sent + writeBuffer;
    }

    /**
     * `receive`: once the header and the whole body it announces are
     * buffered, the body is returned and exactly that frame is drained from
     * the front; otherwise None, with the buffer untouched.
     */
    method Receive() returns (message: Option<seq<byte>>)
      modifies this`readBuffer
      ensures (message, readBuffer) == Deframe(old(readBuffer))
    {
      message := None;
      if |readBuffer| >= 2 {
        var len := readBuffer[0] as nat + 256 * readBuffer[1] as nat;
        if |readBuffer| >= len + 2 {
          message := Some(readBuffer[2..len + 2]);
          readBuffer := readBuffer[len + 2..];
        }
      }
    }
  }

  /** What a connector reports to the session. */
  datatype ConnectStatus =
    | Connected(socket: TcpSocket)
    | Connecting
    | Failed

  /** `TcpConnector`: holds the connected stream until the session takes it. */
  class TcpConnector {
    var socket: Option<TcpSocket>

    /** `TcpConnector::connect`, with whether the blocking connect succeeded as an input. */
    constructor (succeeded: bool)
      ensures succeeded <==> socket.Some?
      ensures socket.Some? ==>
        fresh(socket.value) && socket.value.writeBuffer == [] && socket.value.readBuffer == [] && socket.value.connected
    {
      if succeeded {
        var s := new TcpSocket();
        socket := Some(s);
      } else {
        socket := None;
      }
    }

    /**
     * `status`: hands over the stream on the first call after a successful
     * connect, and reports Failed on every other call, because the stream
     * is taken out of the connector.
     */
    method Status() returns (status: ConnectStatus)
      modifies this`socket
      ensures old(socket).Some? ==> status == Connected(old(socket).value)
      ensures old(socket).None? ==> status == Failed
      ensures socket.None?
    {
      match socket
      case Some(s) =>
        socket := None;
        status := Connected(s);
      case None =>
        status := Failed;
    }
  }

  /** `TcpHost::accept`, with whether a connection was pending as an input. */
  method Accept(pending: bool) returns (socket: Option<TcpSocket>)
    ensures pending <==> socket.Some?
    ensures socket.Some? ==>
      fresh(socket.value) && socket.value.writeBuffer == [] && socket.value.readBuffer == [] && socket.value.connected
  {
    if pending {
      var s := new TcpSocket();
      socket := Some(s);
    } else {
      socket := None;
    }
  }
}
