/**
 * BackgroundProcess (legacy target): the same worker loop as the live one, on
 * a receiver that queues no printed text and with no lock around the
 * outbound queue. The drains of the two queues are those of the live target.
 */
module LegacyBackgroundProcesses {
  import opened Types
  import opened JsValues
  import opened LockedQueues
  import opened ScheduleQueues
  import opened PdWrappers
  import opened Receivers
  import opened LegacyReceivers
  import opened Callbacks
  import opened BackgroundProcesses

  /** The messages the legacy receiver queued during the ticks, in order. */
  function LegacyInboundTrace(ticks: seq<Tick>): seq<PdMsg>
    decreases |ticks|
  {
    if ticks == [] then [] else LegacyInboundTrace(ticks[..|ticks| - 1]) + LegacyEventMessages(ticks[|ticks| - 1].events)
  }

  lemma LegacyInboundTraceStep(ticks: seq<Tick>, k: nat)
    requires k < |ticks|
    ensures LegacyInboundTrace(ticks[..k + 1]) == LegacyInboundTrace(ticks[..k]) + LegacyEventMessages(ticks[k].events)
  {
    assert ticks[..k + 1][..k] == ticks[..k];
  }

  /**
   * The inbound queue after the first `n` ticks, on the legacy receiver: a tick whose
   * progress callback ran before its iteration starts from an empty queue.
   */
  function LegacyQueueAfter(inbound: seq<PdMsg>, ticks: seq<Tick>, n: nat): seq<PdMsg>
    requires n <= |ticks|
  {
    if n == 0 then inbound
    else (if ticks[n - 1].drained then [] else LegacyQueueAfter(inbound, ticks, n - 1)) + LegacyEventMessages(ticks[n - 1].events)
  }

  /** What the legacy progress callback popped during the first `n` ticks, in pop order. */
  function LegacyHostDrained(inbound: seq<PdMsg>, ticks: seq<Tick>, n: nat): seq<PdMsg>
    requires n <= |ticks|
  {
    if n == 0 then []
    else LegacyHostDrained(inbound, ticks, n - 1) + (if ticks[n - 1].drained then LegacyQueueAfter(inbound, ticks, n - 1) else [])
  }

  /**
   * As in the live target, nothing the legacy receiver queues is lost,
   * duplicated or reordered between it and the progress callback.
   */
  lemma {:induction false} LegacyNothingReceivedIsLost(inbound: seq<PdMsg>, ticks: seq<Tick>, n: nat)
    requires n <= |ticks|
    ensures LegacyHostDrained(inbound, ticks, n) + LegacyQueueAfter(inbound, ticks, n) == inbound + LegacyInboundTrace(ticks[..n])
  {
    if n > 0 {
      var d, q, e := LegacyHostDrained(inbound, ticks, n - 1), LegacyQueueAfter(inbound, ticks, n - 1), LegacyEventMessages(ticks[n - 1].events);
      LegacyNothingReceivedIsLost(inbound, ticks, n - 1);
      LegacyInboundTraceStep(ticks, n - 1);
      AppendAssoc(inbound, LegacyInboundTrace(ticks[..n - 1]), e);
      if !ticks[n - 1].drained {
        assert d + [] == d;
        AppendAssoc(d, q, e);
      }
    }
  }

  /**
   * The inbound side of a legacy run: the queue is LegacyQueueAfter the
   * ticks so far, and each iteration raised the flag iff the queue then held
   * something.
   */
  ghost predicate LegacyNotified(ticks: seq<Tick>, its: seq<Iteration>, inbound: seq<PdMsg>, items: seq<PdMsg>)
    requires |its| <= |ticks|
  {
    && items == LegacyQueueAfter(inbound, ticks, |its|)
    && (forall i | 0 <= i < |its| :: its[i].notified <==> LegacyQueueAfter(inbound, ticks, i + 1) != [])
  }

  lemma LegacyNotifiedStep(ticks: seq<Tick>, its: seq<Iteration>, inbound: seq<PdMsg>, items: seq<PdMsg>, it: Iteration, items': seq<PdMsg>)
    requires |its| < |ticks| && LegacyNotified(ticks, its, inbound, items)
    requires items' == (if ticks[|its|].drained then [] else items) + LegacyEventMessages(ticks[|its|].events)
    requires it.notified <==> items' != []
    ensures LegacyNotified(ticks, its + [it], inbound, items')
  {
    var its' := its + [it];
    assert LegacyQueueAfter(inbound, ticks, |its| + 1) == items';
    forall i | 0 <= i < |its'|
      ensures its'[i].notified <==> LegacyQueueAfter(inbound, ticks, i + 1) != []
    {
      if i < |its| {
        assert its'[i] == its[i];
      }
    }
  }

  /**
   * After a tick whose progress callback emptied the queue, the flag is
   * raised iff the legacy receiver queued something during that iteration.
   */
  lemma LegacyDrainedTickFlag(ticks: seq<Tick>, its: seq<Iteration>, inbound: seq<PdMsg>, items: seq<PdMsg>, i: nat)
    requires |its| <= |ticks| && LegacyNotified(ticks, its, inbound, items)
    requires i < |its| && ticks[i].drained
    ensures its[i].notified <==> LegacyEventMessages(ticks[i].events) != []
  {
  }

  /** The callback calls the legacy progress callback made during the first `n` ticks, in pop order. */
  ghost predicate LegacyDelivered(ticks: seq<Tick>, n: nat, inbound: seq<PdMsg>, calls: seq<seq<JsValue>>)
    requires n <= |ticks|
  {
    calls == CallbackCalls(LegacyHostDrained(inbound, ticks, n))
  }

  lemma LegacyDeliveredStep(ticks: seq<Tick>, k: nat, inbound: seq<PdMsg>, calls: seq<seq<JsValue>>,
                            items: seq<PdMsg>, more: seq<seq<JsValue>>)
    requires k < |ticks| && LegacyDelivered(ticks, k, inbound, calls)
    requires items == LegacyQueueAfter(inbound, ticks, k)
    requires more == (if ticks[k].drained then CallbackCalls(items) else [])
    ensures LegacyDelivered(ticks, k + 1, inbound, calls + more)
  {
    CallbackCallsAppend(LegacyHostDrained(inbound, ticks, k), if ticks[k].drained then items else []);
  }

  class LegacyBackgroundProcess {
    /** audioConfig_, fixed once the process exists. */
    const config: AudioConfig
    /** msgReceiveQueue_: the inbound queue, filled by the receiver. */
    const receiveQueue: LockedQueue<PdMsg>
    const pdWrapper: PdWrapper
    /** The receiver the engine delivers to; it fills `receiveQueue`. */
    const receiver: LegacyPdReceiver
    /** sendMsgQueue_: the pending outbound messages. */
    const sendQueue: ScheduleQueue

    ghost predicate Valid()
      reads this, sendQueue
    {
      sendQueue.Valid() && receiver.queue == receiveQueue
    }

    constructor (config: AudioConfig, msgQueue: LockedQueue<PdMsg>, pdWrapper: PdWrapper, receiver: LegacyPdReceiver)
      requires receiver.queue == msgQueue
      ensures Valid() && fresh(sendQueue) && sendQueue.Contents() == multiset{}
      ensures this.config == config && receiveQueue == msgQueue
      ensures this.pdWrapper == pdWrapper && this.receiver == receiver
    {
      this.config := config;
      receiveQueue := msgQueue;
      this.pdWrapper := pdWrapper;
      this.receiver := receiver;
      sendQueue := new ScheduleQueue();
    }

    /** addScheduledMessage: one more pending message, nothing removed. */
    method AddScheduledMessage(m: ScheduledMsg)
      requires Valid()
      modifies sendQueue
      ensures Valid()
      ensures sendQueue.Contents() == old(sendQueue.Contents()) + multiset{m}
    {
      sendQueue.Push(m);
    }

    /**
     * One iteration of Execute's loop at audio time `currentTime`: forward
     * exactly the pending messages due by the horizon, earliest first; let
     * the engine make its callbacks `events` (printed text queues nothing);
     * notify iff the inbound queue is then non-empty.
     */
    method Iterate(currentTime: real, events: seq<ReceiverEvent>) returns (it: Iteration)
      requires Valid()
      modifies sendQueue, pdWrapper, receiveQueue
      ensures Valid()
      ensures multiset(it.sent) + sendQueue.Contents() == old(sendQueue.Contents())
      ensures forall y :: multiset(it.sent)[y] == (if y.time <= Horizon(currentTime, config) then old(sendQueue.Contents())[y] else 0)
      ensures SortedByTime(it.sent)
      ensures forall i | 0 <= i < |it.sent| :: it.sent[i].time <= Horizon(currentTime, config)
      ensures forall y | y in sendQueue.Contents() :: y.time > Horizon(currentTime, config)
      ensures forall y :: sendQueue.Contents()[y] == (if y.time > Horizon(currentTime, config) then old(sendQueue.Contents())[y] else 0)
      ensures pdWrapper.log == old(pdWrapper.log) + SendCalls(it.sent)
      ensures pdWrapper.engineInited == old(pdWrapper.engineInited) && pdWrapper.patches == old(pdWrapper.patches)
      ensures receiveQueue.items == old(receiveQueue.items) + LegacyEventMessages(events)
      ensures it.notified <==> receiveQueue.items != []
    {
      var nextTime := currentTime + config.bufferDuration;
      var sent := DrainDue(sendQueue, pdWrapper, nextTime);
      receiver.ReceiveMessages(events);
      var empty := receiveQueue.Empty();
      it := Iteration(sent, !empty);
    }

    /** The host's addScheduledMessage calls made before one iteration, in order. */
    method ScheduleAll(msgs: seq<ScheduledMsg>)
      requires Valid()
      modifies sendQueue
      ensures Valid()
      ensures sendQueue.Contents() == old(sendQueue.Contents()) + multiset(msgs)
    {
      var j := 0;
      while j < |msgs|
        invariant Valid()
        invariant 0 <= j <= |msgs|
        invariant sendQueue.Contents() == old(sendQueue.Contents()) + multiset(msgs[..j])
      {
        AddScheduledMessage(msgs[j]);
        assert msgs[..j + 1] == msgs[..j] + [msgs[j]];
        j := j + 1;
      }
      assert msgs[..j] == msgs;
    }

    /**
     * Execute: iterate while the stream is active, the host scheduling
     * messages and running its progress callback between iterations. Each
     * iteration forwards exactly what is due by its own horizon (RunSoFar,
     * with `pend` what was pending before each iteration), and raises the
     * flag iff the inbound queue then holds something (LegacyNotified); the
     * progress callback's calls, in order, are `delivered` (LegacyDelivered).
     */
    method Execute(ticks: seq<Tick>) returns (its: seq<Iteration>, delivered: seq<seq<JsValue>>, ghost pend: seq<multiset<ScheduledMsg>>)
      requires Valid()
      modifies sendQueue, pdWrapper, receiveQueue
      ensures Valid()
      ensures |its| == ActiveRun(ticks)
      ensures RunSoFar(config, ticks, its, pend, old(sendQueue.Contents()), sendQueue.Contents(), old(pdWrapper.log), pdWrapper.log)
      ensures LegacyNotified(ticks, its, old(receiveQueue.items), receiveQueue.items)
      ensures LegacyDelivered(ticks, |its|, old(receiveQueue.items), delivered)
      ensures pdWrapper.engineInited == old(pdWrapper.engineInited) && pdWrapper.patches == old(pdWrapper.patches)
    {
      ghost var before := sendQueue.Contents();
      ghost var logBefore := pdWrapper.log;
      ghost var inbound := receiveQueue.items;
      its, delivered, pend := [], [], [before];
      var k := 0;
      while k < |ticks| && ticks[k].active
        invariant Valid()
        invariant k <= ActiveRun(ticks) && |its| == k
        invariant RunSoFar(config, ticks, its, pend, before, sendQueue.Contents(), logBefore, pdWrapper.log)
        invariant LegacyNotified(ticks, its, inbound, receiveQueue.items)
        invariant LegacyDelivered(ticks, k, inbound, delivered)
        invariant pdWrapper.engineInited == old(pdWrapper.engineInited) && pdWrapper.patches == old(pdWrapper.patches)
      {
        ActiveRunStep(ticks, k);
        var it;
        it, delivered := RunTick(ticks, k, its, pend, before, logBefore, inbound, delivered);
        its, pend := its + [it], pend + [sendQueue.Contents()];
        k := k + 1;
      }
    }

    /**
     * One pass of Execute's loop: for tick k, the host's progress callback
     * when it runs and the host's scheduling, then one iteration.
     */
    method RunTick(ticks: seq<Tick>, k: nat, ghost its: seq<Iteration>, ghost pend: seq<multiset<ScheduledMsg>>,
                   ghost before: multiset<ScheduledMsg>, ghost logBefore: seq<EngineCall>, ghost inbound: seq<PdMsg>,
                   delivered: seq<seq<JsValue>>)
      returns (it: Iteration, delivered': seq<seq<JsValue>>)
      requires Valid() && k == |its| && k < |ticks|
      requires RunSoFar(config, ticks, its, pend, before, sendQueue.Contents(), logBefore, pdWrapper.log)
      requires LegacyNotified(ticks, its, inbound, receiveQueue.items)
      requires LegacyDelivered(ticks, k, inbound, delivered)
      modifies sendQueue, pdWrapper, receiveQueue
      ensures Valid()
      ensures RunSoFar(config, ticks, its + [it], pend + [sendQueue.Contents()], before, sendQueue.Contents(), logBefore, pdWrapper.log)
      ensures LegacyNotified(ticks, its + [it], inbound, receiveQueue.items)
      ensures LegacyDelivered(ticks, k + 1, inbound, delivered')
      ensures pdWrapper.engineInited == old(pdWrapper.engineInited) && pdWrapper.patches == old(pdWrapper.patches)
    {
      var tick := ticks[k];
      ghost var pending := sendQueue.Contents();
      ghost var log := pdWrapper.log;
      ghost var items := receiveQueue.items;
      var calls := [];
      if tick.drained {
        calls := HandleProgressCallback();
      }
      ScheduleAll(tick.scheduled);
      it := Iterate(tick.currentTime, tick.events);
      RunStep(config, ticks, its, pend, before, pending, sendQueue.Contents(), logBefore, log, it);
      LegacyNotifiedStep(ticks, its, inbound, items, it, receiveQueue.items);
      LegacyDeliveredStep(ticks, k, inbound, delivered, items, calls);
      delivered' := delivered + calls;
    }

    /**
     * HandleProgressCallback: drains the inbound queue to empty, one
     * message-callback call per message in queue order.
     */
    method HandleProgressCallback() returns (calls: seq<seq<JsValue>>)
      modifies receiveQueue
      ensures receiveQueue.items == []
      ensures calls == CallbackCalls(old(receiveQueue.items))
      ensures old(receiveQueue.items) == [] ==> calls == []
    {
      calls := DrainInbound(receiveQueue);
    }
  }
}
