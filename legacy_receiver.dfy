/**
 * PdReceiver (legacy target): the same four message callbacks as the live
 * receiver, but `print` only writes the text to standard output and queues
 * nothing.
 */
module LegacyReceivers {
  import opened Types
  import opened LockedQueues
  import opened Receivers

  /**
   * The messages the legacy receiver queues for a run of callbacks: those of
   * the live receiver with the printed texts left out.
   */
  function LegacyEventMessages(events: seq<ReceiverEvent>): (ms: seq<PdMsg>)
    ensures |ms| <= |events|
    decreases |events|
  {
    if events == [] then []
    else
      var last := events[|events| - 1];
      LegacyEventMessages(events[..|events| - 1]) + (if last.PrintEvent? then [] else [EventMessage(last)])
  }

  /** The callbacks that are not prints, in order. */
  function WithoutPrints(events: seq<ReceiverEvent>): (r: seq<ReceiverEvent>)
    ensures |r| <= |events|
    ensures forall e | e in r :: e in events && !e.PrintEvent?
    decreases |events|
  {
    if events == [] then []
    else
      var last := events[|events| - 1];
      WithoutPrints(events[..|events| - 1]) + (if last.PrintEvent? then [] else [last])
  }

  /** With no print among the callbacks, nothing is filtered out. */
  lemma {:induction false} WithoutPrintsKeepsNonPrints(events: seq<ReceiverEvent>)
    requires forall i | 0 <= i < |events| :: !events[i].PrintEvent?
    ensures WithoutPrints(events) == events
    decreases |events|
  {
    if events != [] {
      var init := events[..|events| - 1];
      assert forall i | 0 <= i < |init| :: !init[i].PrintEvent? by {
        forall i | 0 <= i < |init| ensures !init[i].PrintEvent? {
          assert init[i] == events[i];
        }
      }
      WithoutPrintsKeepsNonPrints(init);
      assert !events[|events| - 1].PrintEvent?;
      assert events == init + [events[|events| - 1]];
    }
  }

  /**
   * The two receivers differ by the prints alone: the legacy one queues what
   * the live one would queue for the same callbacks once the prints are
   * removed.
   */
  lemma {:induction false} LegacyIsLiveWithoutPrints(events: seq<ReceiverEvent>)
    ensures LegacyEventMessages(events) == EventMessages(WithoutPrints(events))
    decreases |events|
  {
    if events != [] {
      var init := events[..|events| - 1];
      var last := events[|events| - 1];
      LegacyIsLiveWithoutPrints(init);
      var w := WithoutPrints(init);
      if !last.PrintEvent? {
        assert WithoutPrints(events) == w + [last];
        assert EventMessages(w + [last]) == EventMessages(w) + [EventMessage(last)];
      }
    }
  }

  /** With no print among the callbacks, both receivers queue the same messages. */
  lemma LegacyAgreesWithoutPrints(events: seq<ReceiverEvent>)
    requires forall i | 0 <= i < |events| :: !events[i].PrintEvent?
    ensures LegacyEventMessages(events) == EventMessages(events)
  {
    LegacyIsLiveWithoutPrints(events);
    WithoutPrintsKeepsNonPrints(events);
  }

  class LegacyPdReceiver {
    /** msgQueue_: the inbound queue, shared with the background process. */
    const queue: LockedQueue<PdMsg>

    constructor (msgQueue: LockedQueue<PdMsg>)
      ensures queue == msgQueue
    {
      queue := msgQueue;
    }

    /** print: standard output only (not modelled); the queue is left as it is. */
    method Print(text: string)
      ensures queue.items == old(queue.items)
    {
    }

    method ReceiveBang(channel: Channel)
      modifies queue
      ensures queue.items == old(queue.items) + [BangMessage(channel)]
    {
      queue.Push(BangMessage(channel));
    }

    method ReceiveFloat(channel: Channel, num: real)
      modifies queue
      ensures queue.items == old(queue.items) + [FloatMessage(channel, num)]
    {
      queue.Push(FloatMessage(channel, num));
    }

    method ReceiveSymbol(channel: Channel, symbol: string)
      modifies queue
      ensures queue.items == old(queue.items) + [SymbolMessage(channel, symbol)]
    {
      queue.Push(SymbolMessage(channel, symbol));
    }

    method ReceiveList(channel: Channel, list: PdList)
      modifies queue
      ensures queue.items == old(queue.items) + [ListMessage(channel, list)]
    {
      queue.Push(ListMessage(channel, list));
    }

    /** The engine's receiveMessages: one callback per pending engine event, in order. */
    method ReceiveMessages(events: seq<ReceiverEvent>)
      modifies queue
      ensures queue.items == old(queue.items) + LegacyEventMessages(events)
    {
      var k := 0;
      while k < |events|
        invariant 0 <= k <= |events|
        invariant queue.items == old(queue.items) + LegacyEventMessages(events[..k])
      {
        match events[k] {
          case PrintEvent(text) => Print(text);
          case BangEvent(c) => ReceiveBang(c);
          case FloatEvent(c, n) => ReceiveFloat(c, n);
          case SymbolEvent(c, s) => ReceiveSymbol(c, s);
          case ListEvent(c, l) => ReceiveList(c, l);
        }
        assert events[..k + 1][..k] == events[..k];
        k := k + 1;
      }
      assert events[..k] == events;
    }
  }
}
