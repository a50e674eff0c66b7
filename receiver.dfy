/**
 * PdReceiver (live target): the object libpd calls back while it drains its
 * own outbound messages. Each callback builds one tagged message and pushes
 * it onto the inbound LockedQueue it shares with the background process.
 */
module Receivers {
  import opened Types
  import opened LockedQueues

  /** One callback the engine makes on its receiver. */
  datatype ReceiverEvent =
    | PrintEvent(text: string)
    | BangEvent(channel: Channel)
    | FloatEvent(channel: Channel, num: real)
    | SymbolEvent(channel: Channel, symbol: string)
    | ListEvent(channel: Channel, list: PdList)

  /** The channel the live receiver files printed text under. */
  const PrintChannel: Channel := "print"

  /**
   * The message the live receiver queues for one callback. Printed text
   * becomes a symbol on the "print" channel; every other callback keeps its
   * channel and carries its argument unchanged under the tag its kind names.
   */
  function EventMessage(ev: ReceiverEvent): (m: PdMsg)
    ensures ev.PrintEvent? ==> m.channel == PrintChannel && m.Type() == SymbolMsg && m.SymbolField() == ev.text
    ensures !ev.PrintEvent? ==> m.channel == ev.channel
    ensures ev.BangEvent? <==> m.Type() == BangMsg
    ensures ev.FloatEvent? <==> m.Type() == FloatMsg
    ensures ev.FloatEvent? ==> m.payload == Float(ev.num)
    ensures ev.SymbolEvent? ==> m.Type() == SymbolMsg && m.SymbolField() == ev.symbol
    ensures ev.ListEvent? <==> m.Type() == ListMsg
    ensures ev.ListEvent? ==> m.ListField() == ev.list
  {
    match ev
    case PrintEvent(text) => SymbolMessage(PrintChannel, text)
    case BangEvent(c) => BangMessage(c)
    case FloatEvent(c, n) => FloatMessage(c, n)
    case SymbolEvent(c, s) => SymbolMessage(c, s)
    case ListEvent(c, l) => ListMessage(c, l)
  }

  /** The messages a run of callbacks queues, one per callback, in callback order. */
  function EventMessages(events: seq<ReceiverEvent>): (ms: seq<PdMsg>)
    ensures |ms| == |events|
    ensures forall i | 0 <= i < |events| :: ms[i] == EventMessage(events[i])
  {
    seq(|events|, i requires 0 <= i < |events| => EventMessage(events[i]))
  }

  class PdReceiver {
    /** msgQueue_: the inbound queue, shared with the background process. */
    const queue: LockedQueue<PdMsg>

    constructor (msgQueue: LockedQueue<PdMsg>)
      ensures queue == msgQueue
    {
      queue := msgQueue;
    }

    /** print: the text is queued as a symbol message on channel "print". */
    method Print(text: string)
      modifies queue
      ensures queue.items == old(queue.items) + [SymbolMessage(PrintChannel, text)]
    {
      queue.Push(SymbolMessage(PrintChannel, text));
    }

    method ReceiveBang(channel: Channel)
      modifies queue
      ensures queue.items == old(queue.items) + [BangMessage(channel)]
    {
      queue.Push(BangMessage(channel));
    }

    method ReceiveFloat(channel: Channel, num: real)
      modifies queue
      ensures queue.items == old(queue.items) + [FloatMessage(channel, num)]
    {
      queue.Push(FloatMessage(channel, num));
    }

    method ReceiveSymbol(channel: Channel, symbol: string)
      modifies queue
      ensures queue.items == old(queue.items) + [SymbolMessage(channel, symbol)]
    {
      queue.Push(SymbolMessage(channel, symbol));
    }

    method ReceiveList(channel: Channel, list: PdList)
      modifies queue
      ensures queue.items == old(queue.items) + [ListMessage(channel, list)]
    {
      queue.Push(ListMessage(channel, list));
    }

    /**
     * The engine's receiveMessages as seen from this receiver: one callback per
     * pending engine event, in order.
     */
    method ReceiveMessages(events: seq<ReceiverEvent>)
      modifies queue
      ensures queue.items == old(queue.items) + EventMessages(events)
    {
      var k := 0;
      while k < |events|
        invariant 0 <= k <= |events|
        invariant queue.items == old(queue.items) + EventMessages(events[..k])
      {
        match events[k] {
          case PrintEvent(text) => Print(text);
          case BangEvent(c) => ReceiveBang(c);
          case FloatEvent(c, n) => ReceiveFloat(c, n);
          case SymbolEvent(c, s) => ReceiveSymbol(c, s);
          case ListEvent(c, l) => ReceiveList(c, l);
        }
        assert EventMessages(events[..k + 1]) == EventMessages(events[..k]) + [EventMessage(events[k])];
        k := k + 1;
      }
      assert events[..k] == events;
    }
  }
}
