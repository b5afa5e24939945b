/**
 * The per-request sink stack, reduced to what the server sinks rely on:
 * pushing a (sink, context) frame and delivering a return message to the
 * frame on top.
 */
module SinkStacks {

  import opened Messages

  /** One frame: the sink a response must pass back through and the context it pushed. */
  datatype Entry = Entry(sink: object, context: int)

  /** One delivery: the frame the message was handed to, and the message itself. */
  datatype Delivery = Delivery(target: Entry, message: ReturnMessage)

  class SinkStack {
    /** The frames, bottom first: the last one is the top. */
    var frames: seq<Entry>
    /** Every message delivered through this stack, in order. */
    var delivered: seq<Delivery>

    constructor ()
      ensures frames == [] && delivered == []
    {
      frames := [];
      delivered := [];
    }

    /** The frame a delivery would reach. */
    function Top(): Entry
      reads this
      requires frames != []
    {
      frames[|frames| - 1]
    }

    method Push(sink: object, context: int)
      modifies this
      ensures frames == old(frames) + [Entry(sink, context)]
      ensures delivered == old(delivered)
    {
      frames := frames + [Entry(sink, context)];
    }

    /** AsyncProcessResponseMessage: pop the top frame and hand it the message unchanged. */
    method DeliverMessage(msg: ReturnMessage) returns (target: Entry)
      requires frames != []
      modifies this
      ensures target == old(Top())
      ensures frames == old(frames[..|frames| - 1])
      ensures delivered == old(delivered) + [Delivery(target, msg)]
    {
      target := frames[|frames| - 1];
      frames := frames[..|frames| - 1];
      delivered := delivered + [Delivery(target, msg)];
    }
  }
}
