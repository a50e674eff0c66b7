/**
 * BackgroundProcess (live target): the worker that keeps the audio stream
 * company. Host sends are queued with a due time; each iteration of the
 * worker forwards to the engine, earliest first, every queued message due
 * within the look-ahead horizon (current audio time plus one buffer), lets
 * the engine deliver its own messages to the receiver, and raises the
 * progress flag when the inbound queue holds something. The progress
 * callback, on the host's side, drains the inbound queue and calls the
 * host's message callback once per message.
 *
 * The drain of the outbound queue and the drain of the inbound queue are the
 * same in both targets and are defined here once, as module-level methods.
 */
module BackgroundProcesses {
  import opened Types
  import opened JsValues
  import opened LockedQueues
  import opened ScheduleQueues
  import opened PdWrappers
  import opened Receivers
  import opened Callbacks

  /** The due-time limit of one iteration: `currentTime + lookAhead`. */
  function Horizon(currentTime: real, config: AudioConfig): real {
    currentTime + config.bufferDuration
  }

  /**
   * A drain that conserves the pending messages, sends only due ones and
   * leaves only later ones has sent exactly the due messages, each as many
   * times as it was pending, and left the others untouched.
   */
  lemma DrainTakesExactlyTheDue(before: multiset<ScheduledMsg>, sent: seq<ScheduledMsg>,
                                after: multiset<ScheduledMsg>, horizon: real)
    requires multiset(sent) + after == before
    requires forall i | 0 <= i < |sent| :: sent[i].time <= horizon
    requires forall y | y in after :: y.time > horizon
    ensures forall y :: multiset(sent)[y] == (if y.time <= horizon then before[y] else 0)
    ensures forall y :: after[y] == (if y.time > horizon then before[y] else 0)
  {
    forall y
      ensures multiset(sent)[y] == (if y.time <= horizon then before[y] else 0)
      ensures after[y] == (if y.time > horizon then before[y] else 0)
    {
      assert before[y] == multiset(sent)[y] + after[y];
      if y.time <= horizon {
        assert y !in after;
      } else {
        assert forall i | 0 <= i < |sent| :: sent[i] != y;
        assert y !in multiset(sent);
      }
    }
  }

  /**
   * The pending side of a drain under way: what was sent and what is still
   * pending make up what was pending at the start, and what was sent is in
   * time order, due by the horizon, and no later than anything still pending.
   */
  ghost predicate DrainOrdered(before: multiset<ScheduledMsg>, sent: seq<ScheduledMsg>,
                               pending: multiset<ScheduledMsg>, horizon: real)
  {
    && multiset(sent) + pending == before
    && SortedByTime(sent)
    && (forall i | 0 <= i < |sent| :: sent[i].time <= horizon)
    && (forall i, y | 0 <= i < |sent| && y in pending :: sent[i].time <= y.time)
  }

  /** A drain under way: ordered as above, and the engine has seen one send per sent message. */
  ghost predicate Draining(before: multiset<ScheduledMsg>, sent: seq<ScheduledMsg>,
                           pending: multiset<ScheduledMsg>, horizon: real,
                           logBefore: seq<EngineCall>, log: seq<EngineCall>)
  {
    DrainOrdered(before, sent, pending, horizon) && log == logBefore + SendCalls(sent)
  }

  /** Sending a pending message of minimum time that is due keeps the drain ordered. */
  lemma DrainOrderedStep(before: multiset<ScheduledMsg>, sent: seq<ScheduledMsg>,
                         pending: multiset<ScheduledMsg>, horizon: real, next: ScheduledMsg)
    requires DrainOrdered(before, sent, pending, horizon)
    requires next in pending && next.time <= horizon
    requires forall y | y in pending :: next.time <= y.time
    ensures DrainOrdered(before, sent + [next], pending - multiset{next}, horizon)
  {
    var sent' := sent + [next];
    var pending' := pending - multiset{next};
    assert multiset(sent') == multiset(sent) + multiset{next};
    assert pending == pending' + multiset{next};
    forall i, j | 0 <= i < j < |sent'| ensures sent'[i].time <= sent'[j].time {
      if j < |sent| {
        assert sent'[i] == sent[i] && sent'[j] == sent[j];
      } else {
        assert sent'[i] == sent[i] && sent'[j] == next;
      }
    }
    forall i, y | 0 <= i < |sent'| && y in pending' ensures sent'[i].time <= y.time {
      assert y in pending;
      if i < |sent| {
        assert sent'[i] == sent[i];
      }
    }
  }

  lemma DrainStep(before: multiset<ScheduledMsg>, sent: seq<ScheduledMsg>,
                  pending: multiset<ScheduledMsg>, horizon: real,
                  logBefore: seq<EngineCall>, log: seq<EngineCall>, next: ScheduledMsg)
    requires Draining(before, sent, pending, horizon, logBefore, log)
    requires next in pending && next.time <= horizon
    requires forall y | y in pending :: next.time <= y.time
    ensures Draining(before, sent + [next], pending - multiset{next}, horizon, logBefore, log + [SendCall(next.msg)])
  {
    DrainOrderedStep(before, sent, pending, horizon, next);
    SendCallsSnoc(sent, next);
  }

  /**
   * The body of the drain loop: forward the earliest pending message to the
   * engine and remove it from the pending ones. When that message is due,
   * the drain under way stays ordered.
   */
  method ForwardEarliest(sendQueue: ScheduleQueue, pdWrapper: PdWrapper, horizon: real,
                         ghost before: multiset<ScheduledMsg>, ghost sent: seq<ScheduledMsg>, ghost logBefore: seq<EngineCall>)
    returns (next: ScheduledMsg)
    requires sendQueue.Valid() && !sendQueue.Empty()
    requires sendQueue.Top().time <= horizon ==>
      Draining(before, sent, sendQueue.Contents(), horizon, logBefore, pdWrapper.log)
    modifies sendQueue, pdWrapper
    ensures sendQueue.Valid()
    ensures next in old(sendQueue.Contents())
    ensures forall y | y in old(sendQueue.Contents()) :: next.time <= y.time
    ensures sendQueue.Contents() == old(sendQueue.Contents()) - multiset{next}
    ensures pdWrapper.log == old(pdWrapper.log) + [SendCall(next.msg)]
    ensures pdWrapper.engineInited == old(pdWrapper.engineInited) && pdWrapper.patches == old(pdWrapper.patches)
    ensures next.time <= horizon ==>
      Draining(before, sent + [next], sendQueue.Contents(), horizon, logBefore, pdWrapper.log)
  {
    next := sendQueue.Top();
    ghost var pending := sendQueue.Contents();
    ghost var log := pdWrapper.log;
    pdWrapper.SendMessage(next);
    sendQueue.Pop();
    if next.time <= horizon {
      DrainStep(before, sent, pending, horizon, logBefore, log, next);
    }
  }

  /**
   * The drain block of one iteration: while the earliest pending message is
   * due by `horizon`, forward it to the engine and remove it.
   */
  method DrainDue(sendQueue: ScheduleQueue, pdWrapper: PdWrapper, horizon: real) returns (sent: seq<ScheduledMsg>)
    requires sendQueue.Valid()
    modifies sendQueue, pdWrapper
    ensures sendQueue.Valid()
    ensures multiset(sent) + sendQueue.Contents() == old(sendQueue.Contents())
    ensures forall y :: multiset(sent)[y] == (if y.time <= horizon then old(sendQueue.Contents())[y] else 0)
    ensures forall y :: sendQueue.Contents()[y] == (if y.time > horizon then old(sendQueue.Contents())[y] else 0)
    ensures SortedByTime(sent)
    ensures forall i | 0 <= i < |sent| :: sent[i].time <= horizon
    ensures forall y | y in sendQueue.Contents() :: y.time > horizon
    ensures pdWrapper.log == old(pdWrapper.log) + SendCalls(sent)
    ensures pdWrapper.engineInited == old(pdWrapper.engineInited) && pdWrapper.patches == old(pdWrapper.patches)
  {
    ghost var before := sendQueue.Contents();
    ghost var logBefore := pdWrapper.log;
    sent := [];
    while !sendQueue.Empty() && sendQueue.Top().time <= horizon
      invariant sendQueue.Valid()
      invariant Draining(before, sent, sendQueue.Contents(), horizon, logBefore, pdWrapper.log)
      invariant pdWrapper.engineInited == old(pdWrapper.engineInited) && pdWrapper.patches == old(pdWrapper.patches)
      decreases |sendQueue.Contents()|
    {
      var next := ForwardEarliest(sendQueue, pdWrapper, horizon, before, sent, logBefore);
      sent := sent + [next];
    }
    ghost var rest := sendQueue.Contents();
    if !sendQueue.Empty() {
      NothingDueLeft(rest, sendQueue.Top(), horizon);
    }
    DrainTakesExactlyTheDue(before, sent, rest, horizon);
  }

  /** When the earliest pending message is not due, none is. */
  lemma NothingDueLeft(pending: multiset<ScheduledMsg>, top: ScheduledMsg, horizon: real)
    requires top.time > horizon
    requires forall y | y in pending :: !CompareMsgTime(top, y)
    ensures forall y | y in pending :: y.time > horizon
  {
  }

  /**
   * The dequeue loop of the progress callback: pop until the inbound queue is
   * empty and build one callback argument list per message, in pop order.
   */
  method DrainInbound(queue: LockedQueue<PdMsg>) returns (calls: seq<seq<JsValue>>)
    modifies queue
    ensures queue.items == []
    ensures calls == CallbackCalls(old(queue.items))
    ensures old(queue.items) == [] ==> calls == []
  {
    calls := [];
    ghost var popped: seq<PdMsg> := [];
    var empty := queue.Empty();
    while !empty
      invariant empty <==> queue.items == []
      invariant old(queue.items) == popped + queue.items
      invariant calls == CallbackCalls(popped)
      decreases |queue.items|
    {
      ghost var rest := queue.items;
      var ptr := queue.Pop();
      assert ptr.Some? && ptr.value == rest[0] && queue.items == rest[1..];
      var msg := ptr.value;
      PopMovesFront(popped, rest);
      var args := MessageToArgs(msg);
      CallbackCallsSnoc(popped, msg);
      assert calls + [args] == CallbackCalls(popped + [msg]);
      calls, popped := calls + [args], popped + [msg];
      empty := queue.Empty();
    }
    assert popped == old(queue.items);
  }

  /** What one iteration did: the messages it forwarded, in order, and whether it raised the progress flag. */
  datatype Iteration = Iteration(sent: seq<ScheduledMsg>, notified: bool)

  /**
   * What the rest of the system does around one iteration: whether the stream
   * is still active when the loop tests it, whether the host's progress
   * callback drains the inbound queue before it, the messages the host
   * schedules before it, the audio clock it reads, and the engine callbacks
   * its receiveMessages call makes.
   */
  datatype Tick = Tick(active: bool, drained: bool, scheduled: seq<ScheduledMsg>, currentTime: real, events: seq<ReceiverEvent>)

  /** The number of leading ticks during which the stream is active. */
  function ActiveRun(ticks: seq<Tick>): (n: nat)
    ensures n <= |ticks|
    ensures forall i | 0 <= i < n :: ticks[i].active
    ensures n < |ticks| ==> !ticks[n].active
    decreases |ticks|
  {
    if ticks == [] || !ticks[0].active then 0 else 1 + ActiveRun(ticks[1..])
  }

  /** An active tick just after fewer than the leading active ones is one of them. */
  lemma ActiveRunStep(ticks: seq<Tick>, k: nat)
    requires k <= ActiveRun(ticks) && k < |ticks| && ticks[k].active
    ensures k + 1 <= ActiveRun(ticks)
  {
  }

  /** Everything the iterations forwarded, in order. */
  function SentTrace(its: seq<Iteration>): seq<ScheduledMsg>
    decreases |its|
  {
    if its == [] then [] else SentTrace(its[..|its| - 1]) + its[|its| - 1].sent
  }

  /** Everything the host scheduled during the ticks, in order. */
  function ScheduledTrace(ticks: seq<Tick>): seq<ScheduledMsg>
    decreases |ticks|
  {
    if ticks == [] then [] else ScheduledTrace(ticks[..|ticks| - 1]) + ticks[|ticks| - 1].scheduled
  }

  /** Each iteration sent in time order, nothing later than its own horizon. */
  ghost predicate IterationsOrdered(config: AudioConfig, ticks: seq<Tick>, its: seq<Iteration>)
    requires |its| <= |ticks|
  {
    && (forall i | 0 <= i < |its| :: SortedByTime(its[i].sent))
    && (forall i, j | 0 <= i < |its| && 0 <= j < |its[i].sent| ::
          its[i].sent[j].time <= Horizon(ticks[i].currentTime, config))
  }

  lemma IterationsOrderedStep(config: AudioConfig, ticks: seq<Tick>, its: seq<Iteration>, it: Iteration)
    requires |its| < |ticks| && IterationsOrdered(config, ticks, its)
    requires SortedByTime(it.sent)
    requires forall j | 0 <= j < |it.sent| :: it.sent[j].time <= Horizon(ticks[|its|].currentTime, config)
    ensures IterationsOrdered(config, ticks, its + [it])
  {
    var its' := its + [it];
    forall i | 0 <= i < |its'| ensures SortedByTime(its'[i].sent) {
      if i < |its| { assert its'[i] == its[i]; }
    }
    forall i, j | 0 <= i < |its'| && 0 <= j < |its'[i].sent|
      ensures its'[i].sent[j].time <= Horizon(ticks[i].currentTime, config)
    {
      if i < |its| { assert its'[i] == its[i]; }
    }
  }

  /**
   * A run of iterations so far: what they forwarded and what is still pending
   * make up what was pending at the start plus what the host scheduled; the
   * engine has seen one send per forwarded message; and each iteration sent
   * in time order, nothing later than its own horizon.
   */
  ghost predicate Executed(config: AudioConfig, ticks: seq<Tick>, its: seq<Iteration>,
                           before: multiset<ScheduledMsg>, pending: multiset<ScheduledMsg>,
                           logBefore: seq<EngineCall>, log: seq<EngineCall>)
  {
    && |its| <= |ticks|
    && multiset(SentTrace(its)) + pending == before + multiset(ScheduledTrace(ticks[..|its|]))
    && log == logBefore + SendCalls(SentTrace(its))
    && IterationsOrdered(config, ticks, its)
  }

  lemma SentTraceSnoc(its: seq<Iteration>, it: Iteration)
    ensures SentTrace(its + [it]) == SentTrace(its) + it.sent
  {
    assert (its + [it])[..|its|] == its;
  }

  lemma ScheduledTraceStep(ticks: seq<Tick>, k: nat)
    requires k < |ticks|
    ensures ScheduledTrace(ticks[..k + 1]) == ScheduledTrace(ticks[..k]) + ticks[k].scheduled
  {
    assert ticks[..k + 1][..k] == ticks[..k];
  }

  /** The conservation part of one more iteration. */
  lemma ConservationStep(before: multiset<ScheduledMsg>, sentSoFar: seq<ScheduledMsg>, scheduledSoFar: seq<ScheduledMsg>,
                         pending: multiset<ScheduledMsg>, scheduled: seq<ScheduledMsg>,
                         sent: seq<ScheduledMsg>, pendingAfter: multiset<ScheduledMsg>)
    requires multiset(sentSoFar) + pending == before + multiset(scheduledSoFar)
    requires multiset(sent) + pendingAfter == pending + multiset(scheduled)
    ensures multiset(sentSoFar + sent) + pendingAfter == before + multiset(scheduledSoFar + scheduled)
  {
    var lhs := multiset(sentSoFar + sent) + pendingAfter;
    var rhs := before + multiset(scheduledSoFar + scheduled);
    assert multiset(sentSoFar + sent) == multiset(sentSoFar) + multiset(sent);
    assert multiset(scheduledSoFar + scheduled) == multiset(scheduledSoFar) + multiset(scheduled);
    forall y ensures lhs[y] == rhs[y] {
      assert (multiset(sent) + pendingAfter)[y] == (pending + multiset(scheduled))[y];
      assert (multiset(sentSoFar) + pending)[y] == (before + multiset(scheduledSoFar))[y];
    }
    assert lhs == rhs;
  }

  /** One more iteration, after the host's scheduling for its tick, extends the run. */
  lemma ExecuteStep(config: AudioConfig, ticks: seq<Tick>, its: seq<Iteration>,
                    before: multiset<ScheduledMsg>, pending: multiset<ScheduledMsg>,
                    pendingAfter: multiset<ScheduledMsg>,
                    logBefore: seq<EngineCall>, log: seq<EngineCall>, it: Iteration)
    requires Executed(config, ticks, its, before, pending, logBefore, log)
    requires |its| < |ticks|
    requires multiset(it.sent) + pendingAfter == pending + multiset(ticks[|its|].scheduled)
    requires SortedByTime(it.sent)
    requires forall j | 0 <= j < |it.sent| :: it.sent[j].time <= Horizon(ticks[|its|].currentTime, config)
    ensures Executed(config, ticks, its + [it], before, pendingAfter, logBefore, log + SendCalls(it.sent))
  {
    var k := |its|;
    var its' := its + [it];
    ScheduledTraceStep(ticks, k);
    SentTraceSnoc(its, it);
    SendCallsAppend(SentTrace(its), it.sent);
    ConservationStep(before, SentTrace(its), ScheduledTrace(ticks[..k]), pending, ticks[k].scheduled, it.sent, pendingAfter);
    assert multiset(SentTrace(its')) + pendingAfter == before + multiset(ScheduledTrace(ticks[..|its'|]));
    assert log + SendCalls(it.sent) == logBefore + SendCalls(SentTrace(its'));
    IterationsOrderedStep(config, ticks, its, it);
  }

  /**
   * Each iteration forwarded exactly the messages due by its own horizon
   * among those pending before it (`pend[i]`) and those the host had just
   * scheduled.
   */
  ghost predicate SentExactly(config: AudioConfig, ticks: seq<Tick>, its: seq<Iteration>, pend: seq<multiset<ScheduledMsg>>)
    requires |its| <= |ticks| && |its| < |pend|
  {
    forall i, y | 0 <= i < |its| ::
      multiset(its[i].sent)[y] ==
        (if y.time <= Horizon(ticks[i].currentTime, config) then (pend[i] + multiset(ticks[i].scheduled))[y] else 0)
  }

  /**
   * Each of the first n iterations left pending (`pend[i]` after iteration
   * i - 1) exactly the messages later than its horizon among those it was
   * offered.
   */
  ghost predicate KeptExactly(config: AudioConfig, ticks: seq<Tick>, n: nat, pend: seq<multiset<ScheduledMsg>>)
    requires n <= |ticks| && n < |pend|
  {
    forall i, y | 0 < i <= n ::
      pend[i][y] ==
        (if y.time > Horizon(ticks[i - 1].currentTime, config) then (pend[i - 1] + multiset(ticks[i - 1].scheduled))[y] else 0)
  }

  /**
   * Each iteration forwarded exactly the due messages and left exactly the
   * later ones pending: `pend[i]` is what was pending before iteration i,
   * and `pend[|its|]` what is pending after the last.
   */
  ghost predicate IterationsComplete(config: AudioConfig, ticks: seq<Tick>, its: seq<Iteration>,
                                     pend: seq<multiset<ScheduledMsg>>)
    requires |its| <= |ticks|
  {
    |pend| == |its| + 1 && SentExactly(config, ticks, its, pend) && KeptExactly(config, ticks, |its|, pend)
  }

  lemma SentExactlyStep(config: AudioConfig, ticks: seq<Tick>, its: seq<Iteration>,
                        pend: seq<multiset<ScheduledMsg>>, it: Iteration, after: multiset<ScheduledMsg>)
    requires |its| < |ticks| && |pend| == |its| + 1 && SentExactly(config, ticks, its, pend)
    requires forall y ::
               multiset(it.sent)[y] ==
               (if y.time <= Horizon(ticks[|its|].currentTime, config) then (pend[|its|] + multiset(ticks[|its|].scheduled))[y] else 0)
    ensures SentExactly(config, ticks, its + [it], pend + [after])
  {
    var its', pend' := its + [it], pend + [after];
    forall i, y | 0 <= i < |its'|
      ensures multiset(its'[i].sent)[y] ==
        (if y.time <= Horizon(ticks[i].currentTime, config) then (pend'[i] + multiset(ticks[i].scheduled))[y] else 0)
    {
      assert pend'[i] == pend[i];
      if i < |its| { assert its'[i] == its[i]; }
    }
  }

  lemma KeptExactlyStep(config: AudioConfig, ticks: seq<Tick>, n: nat,
                        pend: seq<multiset<ScheduledMsg>>, after: multiset<ScheduledMsg>)
    requires n < |ticks| && |pend| == n + 1 && KeptExactly(config, ticks, n, pend)
    requires forall y ::
               after[y] ==
               (if y.time > Horizon(ticks[n].currentTime, config) then (pend[n] + multiset(ticks[n].scheduled))[y] else 0)
    ensures KeptExactly(config, ticks, n + 1, pend + [after])
  {
    var pend' := pend + [after];
    forall i, y | 0 < i <= n + 1
      ensures pend'[i][y] ==
        (if y.time > Horizon(ticks[i - 1].currentTime, config) then (pend'[i - 1] + multiset(ticks[i - 1].scheduled))[y] else 0)
    {
      assert pend'[i - 1] == pend[i - 1];
      if i <= n { assert pend'[i] == pend[i]; }
    }
  }

  /** In a complete run, a message offered to an iteration and due by its horizon is forwarded by it and not kept pending. */
  lemma CompleteRunForwardsEveryDue(config: AudioConfig, ticks: seq<Tick>, its: seq<Iteration>,
                                    pend: seq<multiset<ScheduledMsg>>, i: nat, y: ScheduledMsg)
    requires |its| <= |ticks| && IterationsComplete(config, ticks, its, pend)
    requires i < |its| && y in pend[i] + multiset(ticks[i].scheduled)
    requires y.time <= Horizon(ticks[i].currentTime, config)
    ensures y in its[i].sent
    ensures y !in pend[i + 1]
  {
    assert multiset(its[i].sent)[y] == (pend[i] + multiset(ticks[i].scheduled))[y];
    assert pend[i + 1][y] == 0;
  }

  /** An iteration that forwards nothing while a due message is pending does not make a complete run. */
  lemma ForwardingNothingIsIncomplete(config: AudioConfig, ticks: seq<Tick>, its: seq<Iteration>,
                                      pend: seq<multiset<ScheduledMsg>>, m: ScheduledMsg)
    requires 0 < |its| <= |ticks| && |pend| == |its| + 1
    requires its[0].sent == [] && m in pend[0] && m.time <= Horizon(ticks[0].currentTime, config)
    ensures !IterationsComplete(config, ticks, its, pend)
  {
    if IterationsComplete(config, ticks, its, pend) {
      CompleteRunForwardsEveryDue(config, ticks, its, pend, 0, m);
    }
  }

  /** The messages the receiver queued during the ticks, in order. */
  function InboundTrace(ticks: seq<Tick>): seq<PdMsg>
    decreases |ticks|
  {
    if ticks == [] then [] else InboundTrace(ticks[..|ticks| - 1]) + EventMessages(ticks[|ticks| - 1].events)
  }

  lemma InboundTraceStep(ticks: seq<Tick>, k: nat)
    requires k < |ticks|
    ensures InboundTrace(ticks[..k + 1]) == InboundTrace(ticks[..k]) + EventMessages(ticks[k].events)
  {
    assert ticks[..k + 1][..k] == ticks[..k];
  }

  /**
   * A run so far, completely: Executed, IterationsComplete, and `pend`
   * running from what was pending at the start to what is pending now.
   */
  ghost predicate RunSoFar(config: AudioConfig, ticks: seq<Tick>, its: seq<Iteration>, pend: seq<multiset<ScheduledMsg>>,
                           before: multiset<ScheduledMsg>, pending: multiset<ScheduledMsg>,
                           logBefore: seq<EngineCall>, log: seq<EngineCall>)
  {
    && Executed(config, ticks, its, before, pending, logBefore, log)
    && IterationsComplete(config, ticks, its, pend)
    && pend[0] == before && pend[|its|] == pending
  }

  /**
   * One more iteration that, from what was pending plus what the host has
   * just scheduled, forwards in time order exactly the due messages and
   * keeps exactly the later ones, extends a complete run.
   */
  lemma RunStep(config: AudioConfig, ticks: seq<Tick>, its: seq<Iteration>, pend: seq<multiset<ScheduledMsg>>,
                before: multiset<ScheduledMsg>, pending: multiset<ScheduledMsg>, after: multiset<ScheduledMsg>,
                logBefore: seq<EngineCall>, log: seq<EngineCall>, it: Iteration)
    requires |its| < |ticks| && RunSoFar(config, ticks, its, pend, before, pending, logBefore, log)
    requires var h := Horizon(ticks[|its|].currentTime, config);
      var offered := pending + multiset(ticks[|its|].scheduled);
      && multiset(it.sent) + after == offered
      && (forall y :: multiset(it.sent)[y] == (if y.time <= h then offered[y] else 0))
      && (forall y :: after[y] == (if y.time > h then offered[y] else 0))
      && SortedByTime(it.sent)
      && (forall j | 0 <= j < |it.sent| :: it.sent[j].time <= h)
    ensures RunSoFar(config, ticks, its + [it], pend + [after], before, after, logBefore, log + SendCalls(it.sent))
  {
    ExecuteStep(config, ticks, its, before, pending, after, logBefore, log, it);
    SentExactlyStep(config, ticks, its, pend, it, after);
    KeptExactlyStep(config, ticks, |its|, pend, after);
  }

  /**
   * The inbound queue after the first `n` ticks: a tick whose progress callback ran
   * before its iteration starts from an empty queue, and the iteration's
   * receiveMessages appends the tick's messages.
   */
  function QueueAfter(inbound: seq<PdMsg>, ticks: seq<Tick>, n: nat): seq<PdMsg>
    requires n <= |ticks|
  {
    if n == 0 then inbound
    else (if ticks[n - 1].drained then [] else QueueAfter(inbound, ticks, n - 1)) + EventMessages(ticks[n - 1].events)
  }

  /** What the progress callback popped during the first `n` ticks, in pop order. */
  function HostDrained(inbound: seq<PdMsg>, ticks: seq<Tick>, n: nat): seq<PdMsg>
    requires n <= |ticks|
  {
    if n == 0 then []
    else HostDrained(inbound, ticks, n - 1) + (if ticks[n - 1].drained then QueueAfter(inbound, ticks, n - 1) else [])
  }

  /**
   * Nothing the receiver queues is lost, duplicated or reordered: what the
   * progress callback popped, followed by what is still queued, is what was
   * queued at the start followed by the receiver's messages tick by tick.
   */
  lemma {:induction false} NothingReceivedIsLost(inbound: seq<PdMsg>, ticks: seq<Tick>, n: nat)
    requires n <= |ticks|
    ensures HostDrained(inbound, ticks, n) + QueueAfter(inbound, ticks, n) == inbound + InboundTrace(ticks[..n])
  {
    if n > 0 {
      var d, q, e := HostDrained(inbound, ticks, n - 1), QueueAfter(inbound, ticks, n - 1), EventMessages(ticks[n - 1].events);
      NothingReceivedIsLost(inbound, ticks, n - 1);
      InboundTraceStep(ticks, n - 1);
      AppendAssoc(inbound, InboundTrace(ticks[..n - 1]), e);
      if !ticks[n - 1].drained {
        assert d + [] == d;
        AppendAssoc(d, q, e);
      }
    }
  }

  /** Without a progress callback during the first `n` ticks the queue only grows, and nothing is popped. */
  lemma {:induction false} UndrainedQueueOnlyGrows(inbound: seq<PdMsg>, ticks: seq<Tick>, n: nat)
    requires n <= |ticks|
    requires forall i | 0 <= i < n :: !ticks[i].drained
    ensures QueueAfter(inbound, ticks, n) == inbound + InboundTrace(ticks[..n])
    ensures HostDrained(inbound, ticks, n) == []
  {
    if n > 0 {
      UndrainedQueueOnlyGrows(inbound, ticks, n - 1);
      InboundTraceStep(ticks, n - 1);
      AppendAssoc(inbound, InboundTrace(ticks[..n - 1]), EventMessages(ticks[n - 1].events));
    }
  }

  /**
   * The inbound side of a run: the queue is QueueAfter the ticks so far, and
   * each iteration raised the flag iff the queue then held something.
   */
  ghost predicate Notified(ticks: seq<Tick>, its: seq<Iteration>, inbound: seq<PdMsg>, items: seq<PdMsg>)
    requires |its| <= |ticks|
  {
    && items == QueueAfter(inbound, ticks, |its|)
    && (forall i | 0 <= i < |its| :: its[i].notified <==> QueueAfter(inbound, ticks, i + 1) != [])
  }

  lemma NotifiedStep(ticks: seq<Tick>, its: seq<Iteration>, inbound: seq<PdMsg>, items: seq<PdMsg>, it: Iteration, items': seq<PdMsg>)
    requires |its| < |ticks| && Notified(ticks, its, inbound, items)
    requires items' == (if ticks[|its|].drained then [] else items) + EventMessages(ticks[|its|].events)
    requires it.notified <==> items' != []
    ensures Notified(ticks, its + [it], inbound, items')
  {
    var its' := its + [it];
    assert QueueAfter(inbound, ticks, |its| + 1) == items';
    forall i | 0 <= i < |its'|
      ensures its'[i].notified <==> QueueAfter(inbound, ticks, i + 1) != []
    {
      if i < |its| {
        assert its'[i] == its[i];
      }
    }
  }

  /**
   * After a tick whose progress callback emptied the queue, the flag is
   * raised iff the engine queued something during that iteration: the flag
   * drops again once the host has caught up.
   */
  lemma DrainedTickFlag(ticks: seq<Tick>, its: seq<Iteration>, inbound: seq<PdMsg>, items: seq<PdMsg>, i: nat)
    requires |its| <= |ticks| && Notified(ticks, its, inbound, items)
    requires i < |its| && ticks[i].drained
    ensures its[i].notified <==> EventMessages(ticks[i].events) != []
  {
  }

  /** The callback calls the progress callback made during the first `n` ticks: one per popped message, in pop order. */
  ghost predicate Delivered(ticks: seq<Tick>, n: nat, inbound: seq<PdMsg>, calls: seq<seq<JsValue>>)
    requires n <= |ticks|
  {
    calls == CallbackCalls(HostDrained(inbound, ticks, n))
  }

  lemma DeliveredStep(ticks: seq<Tick>, k: nat, inbound: seq<PdMsg>, calls: seq<seq<JsValue>>,
                      items: seq<PdMsg>, more: seq<seq<JsValue>>)
    requires k < |ticks| && Delivered(ticks, k, inbound, calls)
    requires items == QueueAfter(inbound, ticks, k)
    requires more == (if ticks[k].drained then CallbackCalls(items) else [])
    ensures Delivered(ticks, k + 1, inbound, calls + more)
  {
    CallbackCallsAppend(HostDrained(inbound, ticks, k), if ticks[k].drained then items else []);
  }

  class BackgroundProcess {
    /** audioConfig_, fixed once the process exists. */
    const config: AudioConfig
    /** msgReceiveQueue_: the inbound queue, filled by the receiver. */
    const receiveQueue: LockedQueue<PdMsg>
    const pdWrapper: PdWrapper
    /** The receiver the engine delivers to; it fills `receiveQueue`. */
    const receiver: PdReceiver
    /** sendMsgQueue_: the pending outbound messages. */
    const sendQueue: ScheduleQueue

    ghost predicate Valid()
      reads this, sendQueue
    {
      sendQueue.Valid() && receiver.queue == receiveQueue
    }

    constructor (config: AudioConfig, msgQueue: LockedQueue<PdMsg>, pdWrapper: PdWrapper, receiver: PdReceiver)
      requires receiver.queue == msgQueue
      ensures Valid() && fresh(sendQueue) && sendQueue.Contents() == multiset{}
      ensures this.config == config && receiveQueue == msgQueue
      ensures this.pdWrapper == pdWrapper && this.receiver == receiver
    {
      this.config := config;
      receiveQueue := msgQueue;
      this.pdWrapper := pdWrapper;
      this.receiver := receiver;
      sendQueue := new ScheduleQueue();
    }

    /** addScheduledMessage: one more pending message, nothing removed. */
    method AddScheduledMessage(m: ScheduledMsg)
      requires Valid()
      modifies sendQueue
      ensures Valid()
      ensures sendQueue.Contents() == old(sendQueue.Contents()) + multiset{m}
    {
      sendQueue.Push(m);
    }

    /**
     * One iteration of Execute's loop at audio time `currentTime`: forward
     * exactly the pending messages due by the horizon, earliest first; let
     * the engine make its callbacks `events`; notify iff the inbound queue is
     * then non-empty.
     */
    method Iterate(currentTime: real, events: seq<ReceiverEvent>) returns (it: Iteration)
      requires Valid()
      modifies sendQueue, pdWrapper, receiveQueue
      ensures Valid()
      ensures multiset(it.sent) + sendQueue.Contents() == old(sendQueue.Contents())
      ensures forall y :: multiset(it.sent)[y] == (if y.time <= Horizon(currentTime, config) then old(sendQueue.Contents())[y] else 0)
      ensures SortedByTime(it.sent)
      ensures forall i | 0 <= i < |it.sent| :: it.sent[i].time <= Horizon(currentTime, config)
      ensures forall y | y in sendQueue.Contents() :: y.time > Horizon(currentTime, config)
      ensures forall y :: sendQueue.Contents()[y] == (if y.time > Horizon(currentTime, config) then old(sendQueue.Contents())[y] else 0)
      ensures pdWrapper.log == old(pdWrapper.log) + SendCalls(it.sent)
      ensures pdWrapper.engineInited == old(pdWrapper.engineInited) && pdWrapper.patches == old(pdWrapper.patches)
      ensures receiveQueue.items == old(receiveQueue.items) + EventMessages(events)
      ensures it.notified <==> receiveQueue.items != []
    {
      var nextTime := currentTime + config.bufferDuration;
      var sent := DrainDue(sendQueue, pdWrapper, nextTime);
      receiver.ReceiveMessages(events);
      var empty := receiveQueue.Empty();
      it := Iteration(sent, !empty);
    }

    /** The host's addScheduledMessage calls made before one iteration, in order. */
    method ScheduleAll(msgs: seq<ScheduledMsg>)
      requires Valid()
      modifies sendQueue
      ensures Valid()
      ensures sendQueue.Contents() == old(sendQueue.Contents()) + multiset(msgs)
    {
      var j := 0;
      while j < |msgs|
        invariant Valid()
        invariant 0 <= j <= |msgs|
        invariant sendQueue.Contents() == old(sendQueue.Contents()) + multiset(msgs[..j])
      {
        AddScheduledMessage(msgs[j]);
        assert msgs[..j + 1] == msgs[..j] + [msgs[j]];
        j := j + 1;
      }
      assert msgs[..j] == msgs;
    }

    /**
     * Execute: iterate while the stream is active, the host scheduling
     * messages and running its progress callback between iterations. Once
     * the stream is found inactive nothing more is forwarded. Each iteration
     * forwards exactly what is due by its own horizon (IterationsComplete,
     * with `pend` what was pending before each iteration), and raises the
     * flag iff the inbound queue then holds something (Notified); the
     * progress callback's calls, in order, are `delivered` (Delivered).
     */
    method Execute(ticks: seq<Tick>) returns (its: seq<Iteration>, delivered: seq<seq<JsValue>>, ghost pend: seq<multiset<ScheduledMsg>>)
      requires Valid()
      modifies sendQueue, pdWrapper, receiveQueue
      ensures Valid()
      ensures |its| == ActiveRun(ticks)
      ensures RunSoFar(config, ticks, its, pend, old(sendQueue.Contents()), sendQueue.Contents(), old(pdWrapper.log), pdWrapper.log)
      ensures Notified(ticks, its, old(receiveQueue.items), receiveQueue.items)
      ensures Delivered(ticks, |its|, old(receiveQueue.items), delivered)
      ensures pdWrapper.engineInited == old(pdWrapper.engineInited) && pdWrapper.patches == old(pdWrapper.patches)
    {
      ghost var before := sendQueue.Contents();
      ghost var logBefore := pdWrapper.log;
      ghost var inbound := receiveQueue.items;
      its, delivered, pend := [], [], [before];
      var k := 0;
      while k < |ticks| && ticks[k].active
        invariant Valid()
        invariant k <= ActiveRun(ticks) && |its| == k
        invariant RunSoFar(config, ticks, its, pend, before, sendQueue.Contents(), logBefore, pdWrapper.log)
        invariant Notified(ticks, its, inbound, receiveQueue.items)
        invariant Delivered(ticks, k, inbound, delivered)
        invariant pdWrapper.engineInited == old(pdWrapper.engineInited) && pdWrapper.patches == old(pdWrapper.patches)
      {
        ActiveRunStep(ticks, k);
        var it;
        it, delivered := RunTick(ticks, k, its, pend, before, logBefore, inbound, delivered);
        its, pend := its + [it], pend + [sendQueue.Contents()];
        k := k + 1;
      }
    }

    /**
     * One pass of Execute's loop: for tick k, the host's progress callback
     * when it runs and the host's scheduling, then one iteration.
     */
    method RunTick(ticks: seq<Tick>, k: nat, ghost its: seq<Iteration>, ghost pend: seq<multiset<ScheduledMsg>>,
                   ghost before: multiset<ScheduledMsg>, ghost logBefore: seq<EngineCall>, ghost inbound: seq<PdMsg>,
                   delivered: seq<seq<JsValue>>)
      returns (it: Iteration, delivered': seq<seq<JsValue>>)
      requires Valid() && k == |its| && k < |ticks|
      requires RunSoFar(config, ticks, its, pend, before, sendQueue.Contents(), logBefore, pdWrapper.log)
      requires Notified(ticks, its, inbound, receiveQueue.items)
      requires Delivered(ticks, k, inbound, delivered)
      modifies sendQueue, pdWrapper, receiveQueue
      ensures Valid()
      ensures RunSoFar(config, ticks, its + [it], pend + [sendQueue.Contents()], before, sendQueue.Contents(), logBefore, pdWrapper.log)
      ensures Notified(ticks, its + [it], inbound, receiveQueue.items)
      ensures Delivered(ticks, k + 1, inbound, delivered')
      ensures pdWrapper.engineInited == old(pdWrapper.engineInited) && pdWrapper.patches == old(pdWrapper.patches)
    {
      var tick := ticks[k];
      ghost var pending := sendQueue.Contents();
      ghost var log := pdWrapper.log;
      ghost var items := receiveQueue.items;
      var calls := [];
      if tick.drained {
        calls := OnProgress();
      }
      ScheduleAll(tick.scheduled);
      it := Iterate(tick.currentTime, tick.events);
      RunStep(config, ticks, its, pend, before, pending, sendQueue.Contents(), logBefore, log, it);
      NotifiedStep(ticks, its, inbound, items, it, receiveQueue.items);
      DeliveredStep(ticks, k, inbound, delivered, items, calls);
      delivered' := delivered + calls;
    }

    /**
     * OnProgress: drains the inbound queue to empty, one message-callback
     * call per message in queue order; nothing is called for an empty queue.
     */
    method OnProgress() returns (calls: seq<seq<JsValue>>)
      modifies receiveQueue
      ensures receiveQueue.items == []
      ensures calls == CallbackCalls(old(receiveQueue.items))
      ensures old(receiveQueue.items) == [] ==> calls == []
    {
      calls := DrainInbound(receiveQueue);
    }
  }
}
