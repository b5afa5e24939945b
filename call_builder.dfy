/**
 * The terminal server stage: it looks the requested method up on the handler,
 * runs it, and turns the outcome into a return message delivered back
 * through the request's sink stack.
 *
 * Running the handler and scheduling the continuation on the hub are not
 * modelled: the invocation's outcome is an input.
 */
module CallBuilder {

  import opened Wrappers
  import opened Messages
  import opened SinkStacks

  /** An attribute of the handler object: a callable, or some other value. */
  datatype Attribute = Callable | NotCallable(value: PyValue)

  /** The handler object, seen through its attributes by name. */
  datatype Handler = Handler(attributes: map<string, Attribute>)

  /** What `getattr(handler, name)` followed by `callable(fn)` finds. */
  datatype Lookup = Missing | FoundNotCallable | FoundCallable

  function LookupMethod(h: Handler, name: string): Lookup
  {
    if name !in h.attributes then Missing
    else if h.attributes[name].Callable? then FoundCallable
    else FoundNotCallable
  }

  /** The text of the error delivered for an attribute that is not callable. */
  function UnknownMethodText(name: string): string
  {
    "Unable to find callable for method " + name
  }

  /** The reply for an attribute that is not callable: an error and nothing else. */
  function UnknownMethodReply(name: string): (r: ReturnMessage)
    ensures ReadReply(r) == Failed(Exception(UnknownMethodText(name)))
    ensures r.returnValue == PyNone && r.properties == map[]
  {
    ReturnMessage(PyNone, Some(Exception(UnknownMethodText(name))), map[])
  }

  /**
   * The reply built from a finished invocation. Read back, it gives the
   * outcome it was built from; it never carries both fields; only a success
   * carries the method name and the sequence id.
   */
  function MethodResponse(outcome: Outcome, methodName: string, seqId: PropertyValue): (r: ReturnMessage)
    ensures ReadReply(r) == outcome
    ensures NeverBoth(r)
    ensures outcome.Failed? ==> r.properties == map[]
    ensures outcome.Succeeded? ==> r.properties == map[Method := Text(methodName), SequenceId := seqId]
  {
    match outcome
    case Failed(e) => ReturnMessage(PyNone, Some(e), map[])
    case Succeeded(v) => ReturnMessage(v, None, map[Method := Text(methodName), SequenceId := seqId])
  }

  /** Everything AsyncProcessRequest can lead to for one request. */
  datatype Dispatch =
    | Propagated(error: Error)           // getattr raised: nothing delivered, no AsyncResult
    | RepliedNow(reply: ReturnMessage)   // not callable: delivered before returning, no AsyncResult
    | RepliedLater(reply: ReturnMessage) // the AsyncResult's continuation delivered the reply
    | ContinuationRaised(error: Error)   // the continuation raised before building a reply
  {
    /** Whether an AsyncResult was created for the request. */
    predicate CreatesAsyncResult()
    {
      RepliedLater? || ContinuationRaised?
    }

    /** The messages delivered through the stack. */
    function Delivered(): seq<ReturnMessage>
    {
      if RepliedNow? || RepliedLater? then [reply] else []
    }
  }

  /**
   * AsyncProcessRequest with its continuation run to the end, as a function of
   * the handler, the request and how the invocation ended.
   */
  function ProcessRequest(h: Handler, msg: RequestMessage, outcome: Outcome): (d: Dispatch)
    ensures d.Propagated? <==> msg.methodName !in h.attributes
    ensures d.CreatesAsyncResult() <==> LookupMethod(h, msg.methodName) == FoundCallable
    ensures |d.Delivered()| <= 1
    ensures d.RepliedNow? ==> d.reply == UnknownMethodReply(msg.methodName)
    ensures d.RepliedLater? ==>
      SequenceId in msg.properties &&
      d.reply == MethodResponse(outcome, msg.methodName, msg.properties[SequenceId])
    ensures d.ContinuationRaised? <==>
      LookupMethod(h, msg.methodName) == FoundCallable && SequenceId !in msg.properties
  {
    match LookupMethod(h, msg.methodName)
    case Missing => Propagated(AttributeError(msg.methodName))
    case FoundNotCallable => RepliedNow(UnknownMethodReply(msg.methodName))
    case FoundCallable =>
      if SequenceId !in msg.properties then ContinuationRaised(KeyError(SequenceId))
      else RepliedLater(MethodResponse(outcome, msg.methodName, msg.properties[SequenceId]))
  }

  /** A missing attribute raises AttributeError out of the call and delivers nothing. */
  lemma MissingMethodRaises(h: Handler, msg: RequestMessage, outcome: Outcome)
    requires msg.methodName !in h.attributes
    ensures ProcessRequest(h, msg, outcome) == Propagated(AttributeError(msg.methodName))
    ensures ProcessRequest(h, msg, outcome).Delivered() == []
  {
  }

  /**
   * A present attribute that is not callable gets exactly one reply, carrying the
   * "unable to find callable" error and no return value, and no AsyncResult;
   * the invocation outcome plays no part.
   */
  lemma NotCallableRepliesWithError(h: Handler, msg: RequestMessage, outcome: Outcome, other: Outcome)
    requires LookupMethod(h, msg.methodName) == FoundNotCallable
    ensures ProcessRequest(h, msg, outcome).Delivered() == [UnknownMethodReply(msg.methodName)]
    ensures !ProcessRequest(h, msg, outcome).CreatesAsyncResult()
    ensures ProcessRequest(h, msg, outcome) == ProcessRequest(h, msg, other)
    ensures ReadReply(UnknownMethodReply(msg.methodName)) ==
      Failed(Exception("Unable to find callable for method " + msg.methodName))
  {
  }

  /**
   * A callable method whose request carries a sequence id gets exactly one reply;
   * read back it is the invocation's outcome, and on success it carries the
   * request's method name and sequence id.
   */
  lemma CallableRepliesWithOutcome(h: Handler, msg: RequestMessage, outcome: Outcome)
    requires LookupMethod(h, msg.methodName) == FoundCallable
    requires SequenceId in msg.properties
    ensures ProcessRequest(h, msg, outcome).RepliedLater?
    ensures |ProcessRequest(h, msg, outcome).Delivered()| == 1
    ensures ReadReply(ProcessRequest(h, msg, outcome).reply) == outcome
    ensures outcome.Failed? ==>
      ProcessRequest(h, msg, outcome).reply == ReturnMessage(PyNone, Some(outcome.failure), map[])
    ensures outcome.Succeeded? ==>
      && ProcessRequest(h, msg, outcome).reply.returnValue == outcome.value
      && ProcessRequest(h, msg, outcome).reply.error == None
      && ProcessRequest(h, msg, outcome).reply.properties[SequenceId] == msg.properties[SequenceId]
      && ProcessRequest(h, msg, outcome).reply.properties[Method] == Text(msg.methodName)
  {
  }

  /** Every delivered reply carries the error exactly when the request failed, never both fields. */
  lemma DeliveredRepliesNeverBoth(h: Handler, msg: RequestMessage, outcome: Outcome)
    ensures forall r <- ProcessRequest(h, msg, outcome).Delivered() :: NeverBoth(r)
    ensures ProcessRequest(h, msg, outcome).RepliedLater? ==>
      (ProcessRequest(h, msg, outcome).reply.error.Some? <==> outcome.Failed?)
  {
  }

  /** A handler that returns None leaves both fields of the reply unset. */
  lemma NoneResultSetsNeitherField(methodName: string, seqId: PropertyValue)
    ensures MethodResponse(Succeeded(PyNone), methodName, seqId).returnValue == PyNone
    ensures MethodResponse(Succeeded(PyNone), methodName, seqId).error == None
  {
  }

  class ServerCallBuilderSink {
    const handler: Handler

    constructor (handler: Handler)
      ensures this.handler == handler
    {
      this.handler := handler;
    }

    /**
     * AsyncProcessRequest, with the handler's invocation ending in `outcome`
     * and the hub continuation run to completion.
     */
    method AsyncProcessRequest(stack: SinkStack, msg: RequestMessage, outcome: Outcome) returns (d: Dispatch)
      requires stack.frames != []
      modifies stack
      ensures d == ProcessRequest(handler, msg, outcome)
      ensures d.Delivered() == [] ==> stack.frames == old(stack.frames) && stack.delivered == old(stack.delivered)
      ensures d.Delivered() != [] ==>
        && stack.frames == old(stack.frames[..|stack.frames| - 1])
        && stack.delivered == old(stack.delivered) + [Delivery(old(stack.Top()), d.reply)]
    {
      match LookupMethod(handler, msg.methodName)
      case Missing =>
        d := Propagated(AttributeError(msg.methodName));
      case FoundNotCallable =>
        var retMsg := UnknownMethodReply(msg.methodName);
        var _ := stack.DeliverMessage(retMsg);
        d := RepliedNow(retMsg);
      case FoundCallable =>
        // The AsyncResult completes with `outcome`; its continuation reads the sequence id.
        var ar := Completed(outcome);
        if SequenceId !in msg.properties {
          d := ContinuationRaised(KeyError(SequenceId));
        } else {
          var retMsg := ProcessMethodResponse(ar, stack, msg.methodName, msg.properties[SequenceId]);
          d := RepliedLater(retMsg);
        }
    }

    /** _ProcessMethodResponse: build the reply from the finished result and pass it on. */
    method ProcessMethodResponse(ar: AsyncResult, stack: SinkStack, methodName: string, seqId: PropertyValue)
      returns (msg: ReturnMessage)
      requires ar.Completed?
      requires stack.frames != []
      modifies stack
      ensures msg == MethodResponse(ar.outcome, methodName, seqId)
      ensures stack.frames == old(stack.frames[..|stack.frames| - 1])
      ensures stack.delivered == old(stack.delivered) + [Delivery(old(stack.Top()), msg)]
    {
      if ar.outcome.Failed? {
        msg := ReturnMessage(PyNone, Some(ar.outcome.failure), map[]);
      } else {
        msg := ReturnMessage(ar.outcome.value, None, map[]);
        msg := msg.(properties := msg.properties[Method := Text(methodName)]);
        msg := msg.(properties := msg.properties[SequenceId := seqId]);
      }
      AsyncProcessResponse(stack, msg);
    }

    /** AsyncProcessResponse: hand the message unchanged to the stack's top frame. */
    method AsyncProcessResponse(stack: SinkStack, msg: ReturnMessage)
      requires stack.frames != []
      modifies stack
      ensures stack.frames == old(stack.frames[..|stack.frames| - 1])
      ensures stack.delivered == old(stack.delivered) + [Delivery(old(stack.Top()), msg)]
    {
      var _ := stack.DeliverMessage(msg);
    }
  }
}
