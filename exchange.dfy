/**
 * Whole request/response exchanges on one connection, composing the transport
 * sink, the sink stack and the call builder. The serializer stage between the
 * transport and the call builder is not modelled: the request it would decode
 * and the reply body it would encode are inputs, and the delivery that reaches
 * the transport's frame is passed on to the transport sink here.
 */
module Exchange {

  import opened Wrappers
  import opened Messages
  import opened SinkStacks
  import opened MuxTransport
  import opened CallBuilder

  /**
   * The reply to a delivered request: once the call builder has delivered to the
   * transport's frame, the transport writes the body under that frame's context.
   */
  method ReplyThrough(transport: ServerMuxSocketTransportSink, stack: SinkStack, body: seq<byte>)
    requires |stack.delivered| == 1 && stack.delivered[0].target.sink == transport
    modifies transport`sent
    ensures transport.sent == old(transport.sent) + [DispatchReply(stack.delivered[0].target.context, body)]
  {
    var target := stack.delivered[0].target;
    transport.AsyncProcessResponse(target.context, body);
  }

  /**
   * One frame received and served to the end. A ping is answered with an Rping
   * under its tag and never reaches the call builder. Any other frame that the
   * call builder answers gets exactly one Rdispatch under the request's own
   * tag; one it does not answer gets no frame.
   */
  method ServeFrame(transport: ServerMuxSocketTransportSink, builder: ServerCallBuilderSink,
                    stream: RecvStream, msg: RequestMessage, outcome: Outcome, body: seq<byte>)
    returns (d: Option<Dispatch>)
    modifies transport, stream`position
    ensures stream.frame.msgType == Tping ==>
      && d == None
      && transport.sent == old(transport.sent) + [PingReply(stream.frame.tag)]
      && transport.forwarded == old(transport.forwarded)
    ensures stream.frame.msgType != Tping ==>
      && d == Some(ProcessRequest(builder.handler, msg, outcome))
      && |transport.forwarded| == |old(transport.forwarded)| + 1
      && (d.value.Delivered() != [] ==>
            transport.sent == old(transport.sent) + [DispatchReply(stream.frame.tag, body)])
      && (d.value.Delivered() == [] ==> transport.sent == old(transport.sent))
  {
    transport.ProcessRecv(stream);
    if stream.frame.msgType == Tping {
      return None;
    }
    var stack := transport.forwarded[|transport.forwarded| - 1].stack;
    var dispatch := builder.AsyncProcessRequest(stack, msg, outcome);
    d := Some(dispatch);
    if dispatch.Delivered() != [] {
      ReplyThrough(transport, stack, body);
    }
  }

  /**
   * Two requests in flight on one connection, answered in the opposite order:
   * each reply still carries its own request's tag, because each request has a
   * stack of its own. The first request is answered by its AsyncResult's
   * continuation, the only step that can run after later frames are read; the
   * second may be answered either way.
   */
  method ServeOutOfOrder(transport: ServerMuxSocketTransportSink, builder: ServerCallBuilderSink,
                         first: RecvStream, second: RecvStream,
                         msg1: RequestMessage, msg2: RequestMessage,
                         outcome1: Outcome, outcome2: Outcome,
                         body1: seq<byte>, body2: seq<byte>)
    requires first.frame.msgType != Tping && second.frame.msgType != Tping
    requires ProcessRequest(builder.handler, msg1, outcome1).RepliedLater?
    requires ProcessRequest(builder.handler, msg2, outcome2).Delivered() != []
    modifies transport, first`position, second`position
    ensures transport.sent == old(transport.sent) +
      [DispatchReply(second.frame.tag, body2), DispatchReply(first.frame.tag, body1)]
  {
    transport.ProcessRecv(first);
    var stack1 := transport.forwarded[|transport.forwarded| - 1].stack;
    transport.ProcessRecv(second);
    var stack2 := transport.forwarded[|transport.forwarded| - 1].stack;
    var d2 := builder.AsyncProcessRequest(stack2, msg2, outcome2);
    ReplyThrough(transport, stack2, body2);
    var d1 := builder.AsyncProcessRequest(stack1, msg1, outcome1);
    ReplyThrough(transport, stack1, body1);
  }
}
