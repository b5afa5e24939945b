/**
 * The per-connection server transport sink of the mux protocol: it answers
 * pings inline, forwards every other frame into the dispatch chain on a fresh
 * sink stack, and frames the replies that come back.
 *
 * The header codec belongs to collaborators that are not modelled, so a header
 * is a value built by BuildHeader and read back by ReadHeader; the socket
 * writes are recorded in a log instead of performed.
 */
module MuxTransport {

  import opened SinkStacks

  newtype byte = x: int | 0 <= x < 256

  /** Mux message kinds; every kind the server does not single out is Other. */
  datatype MessageType = Tping | Rping | Tdispatch | Rdispatch | Other(code: int)

  /** A frame header: the correlation tag, the kind and the declared body length. */
  datatype Header = Header(tag: int, msgType: MessageType, bodyLen: nat)

  /** A frame as it is written or read: a header followed by a body. */
  datatype Frame = Frame(tag: int, msgType: MessageType, bodyLen: nat, body: seq<byte>)

  /** MessageSerializer.BuildHeader. */
  function BuildHeader(tag: int, msgType: MessageType, bodyLen: nat): Header
  {
    Header(tag, msgType, bodyLen)
  }

  /** The bytes `header + body`. */
  function Append(h: Header, body: seq<byte>): Frame
  {
    Frame(h.tag, h.msgType, h.bodyLen, body)
  }

  /** What ReadHeader decodes from a frame: its kind and its tag. */
  function HeaderOf(f: Frame): (MessageType, int)
  {
    (f.msgType, f.tag)
  }

  /** Decoding a built header gives back the kind and tag it was built from. */
  lemma HeaderRoundTrip(tag: int, msgType: MessageType, body: seq<byte>)
    ensures HeaderOf(Append(BuildHeader(tag, msgType, |body|), body)) == (msgType, tag)
    ensures Append(BuildHeader(tag, msgType, |body|), body).bodyLen == |body|
    ensures Append(BuildHeader(tag, msgType, |body|), body).body == body
  {
  }

  /** The frame written in answer to a ping with this tag: an Rping header and no body. */
  function PingReply(tag: int): (f: Frame)
    ensures f.tag == tag && f.msgType == Rping && f.bodyLen == 0 && f.body == []
  {
    Append(BuildHeader(tag, Rping, 0), [])
  }

  /** The frame written for a reply body under a pushed context. */
  function DispatchReply(context: int, body: seq<byte>): (f: Frame)
    ensures HeaderOf(f) == (Rdispatch, context)
    ensures f.bodyLen == |f.body| && f.body == body
  {
    Append(BuildHeader(context, Rdispatch, |body|), body)
  }

  /** A received frame being read: its contents and the read offset. */
  class RecvStream {
    const frame: Frame
    /** How many bytes reading the header consumes. */
    const headerLength: nat
    var position: nat

    constructor (frame: Frame, headerLength: nat)
      ensures this.frame == frame && this.headerLength == headerLength && position == 0
    {
      this.frame := frame;
      this.headerLength := headerLength;
      position := 0;
    }

    /**
     * ThriftMuxMessageSerializerSink.ReadHeader: decode kind and tag, leaving the
     * offset past the header. A received stream is handed over at offset 0, so
     * the offset after the header is the header's length.
     */
    method ReadHeader() returns (msgType: MessageType, tag: int)
      modifies this`position
      ensures (msgType, tag) == HeaderOf(frame)
      ensures position == headerLength
    {
      msgType, tag := frame.msgType, frame.tag;
      position := headerLength;
    }

    /** stream.seek(offset). */
    method Seek(offset: nat)
      modifies this`position
      ensures position == offset
    {
      position := offset;
    }
  }

  /** One call of the next sink's AsyncProcessRequest: the stack and the stream it was given. */
  datatype Forward = Forward(stack: SinkStack, stream: RecvStream)

  class ServerMuxSocketTransportSink {
    /** Every frame written to the socket, in order. */
    var sent: seq<Frame>
    /** Every request handed to the next sink, in order. */
    var forwarded: seq<Forward>

    constructor ()
      ensures sent == [] && forwarded == []
    {
      sent := [];
      forwarded := [];
    }

    /** _Send: write bytes to the socket. */
    method Send(f: Frame)
      modifies this`sent
      ensures sent == old(sent) + [f]
    {
      sent := sent + [f];
    }

    /**
     * _ProcessRecv. A Tping is answered at once with an Rping under the same
     * tag and nothing is forwarded. Any other frame is rewound to its start and
     * forwarded exactly once on a fresh stack holding only (this, tag), and
     * nothing is written.
     */
    method ProcessRecv(stream: RecvStream)
      modifies this, stream`position
      ensures stream.frame.msgType == Tping ==>
        && sent == old(sent) + [PingReply(stream.frame.tag)]
        && forwarded == old(forwarded)
        && stream.position == stream.headerLength
      ensures stream.frame.msgType != Tping ==>
        && sent == old(sent)
        && |forwarded| == |old(forwarded)| + 1
        && forwarded[..|old(forwarded)|] == old(forwarded)
        && forwarded[|old(forwarded)|].stream == stream
        && fresh(forwarded[|old(forwarded)|].stack)
        && forwarded[|old(forwarded)|].stack.frames == [Entry(this, stream.frame.tag)]
        && forwarded[|old(forwarded)|].stack.delivered == []
        && stream.position == 0
    {
      var msgType, tag := stream.ReadHeader();
      if msgType == Tping {
        Send(PingReply(tag));
        return;
      }
      stream.Seek(0);
      var stack := new SinkStack();
      stack.Push(this, tag);
      forwarded := forwarded + [Forward(stack, stream)];
    }

    /**
     * AsyncProcessResponse: frame the serialized reply under the context that
     * was pushed with it (the request's tag) and write header and body together.
     */
    method AsyncProcessResponse(context: int, body: seq<byte>)
      modifies this`sent
      ensures sent == old(sent) + [DispatchReply(context, body)]
    {
      var header := BuildHeader(context, Rdispatch, |body|);
      Send(Append(header, body));
    }
  }
}
