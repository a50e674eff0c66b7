# node-libpd message path, modelled in Dafny

node-libpd runs the Pure Data engine (libpd) inside a Node.js process. The
host (JavaScript) side and the engine exchange messages along two paths:

- **Outbound.** `send(channel, value, time)` classifies a host value as a
  bang, a float, a symbol or a list. It then schedules the message in a
  min-priority queue ordered by due time. A background worker iteration
  forwards every message due by `currentTime + bufferDuration` to the engine,
  in time order.
- **Inbound.** The engine calls a receiver, which pushes one tagged message
  per callback onto a locked FIFO queue. The worker raises a progress flag
  when that queue is not empty. The progress callback then drains the queue
  and calls the host's message callback once per message.
- **Around them.**
  - `initialize` derives the audio configuration once.
  - A patch registry keyed by `$0` tracks open patches.
  - Array transfers pass samples to and from named engine arrays.
  - A host-side listener registry maps each channel to its callbacks. While
    every native call succeeds, it subscribes a channel natively exactly once.
    When one throws (before `init`), a channel can be left with an empty list
    and no native subscription.

The model covers both targets of the repository:

- the live N-API target: `src/*.cc`, `getInstance.js`;
- the legacy Nan target: `src/*.cpp`, `index.js`. It sends immediately,
  computes the look-ahead in integer arithmetic, and its receiver queues no
  printed text.

Modules:

| module | models |
|---|---|
| `Wrappers` | `Option` (a value or nullptr/null) and `Result` (a value or a host exception) |
| `JsValues` | host values, `IsObject`/`Has`, truncation and ECMAScript ToInt32 |
| `Types` | the message variant, scheduled messages and their comparator, patch descriptions, the audio configuration |
| `LockedQueues` | `LockedQueue<T>` as a class, and its semantics under any interleaving of pushes and pops |
| `ScheduleQueues` | the `std::priority_queue` of scheduled messages, whose abstract value is a multiset |
| `PdWrappers` | the engine wrapper: init guard, patch registry, sends, array calls. The engine is a trace of calls. |
| `Receivers`, `LegacyReceivers` | the two receivers |
| `Callbacks` | the argument lists the progress callback builds, with a parser that reads a message back from them |
| `BackgroundProcesses`, `LegacyBackgroundProcesses` | scheduling, the drain of one iteration, the worker loop over a run of ticks, the progress callback |
| `HostValues` | the classification `send` applies, the list built from a host array, and the patch objects |
| `NodePds`, `LegacyNodePds` | the host-facing objects of the two targets |
| `Listeners`, `LegacyListeners` | the two host-side listener registries |
| `PatchPaths` | the two calling conventions of the host's `openPatch` |

The engine, the audio stream and the clock are not modelled. Whatever they
answer is a parameter of the operation that asks them:

- the status of the engine's init;
- the patch the engine opened, and the patch as its close leaves it;
- the result of an array call and the vector it filled;
- the current time and the stream's activity, per worker iteration;
- the callbacks the engine makes during `receiveMessages`.

## Model

Source paths are relative to the repository root.

| member | source | states |
|---|---|---|
| Types.BangMessage | src/types.hpp:41-43 | the channel-only constructor tags BANG_MSG, stores the channel, and leaves `symbol` "" and the list empty |
| Types.FloatMessage | src/types.hpp:45-48 | the float constructor tags FLOAT_MSG and stores the channel and the number |
| Types.SymbolMessage | src/types.hpp:50-53 | the string constructor tags SYMBOL_MSG and stores the channel and the symbol |
| Types.ListMessage | src/types.hpp:55-58 | the list constructor tags LIST_MSG and stores the channel and the list |
| Types.MessageIsItsConstructor | src/types.hpp:40-64 | a message has a given tag iff it is the value that tag's constructor builds from its channel and payload |
| Types.PdMsg.Type | src/types.hpp:33-60 | the `type` tag, determined by the payload's kind |
| Types.PdMsg.SymbolField | src/types.hpp:63 | the `symbol` field: the symbol for a SYMBOL message, "" for every other |
| Types.PdMsg.ListField | src/types.hpp:64 | the `list` field: the list for a LIST message, empty for every other |
| Types.CompareMsgTime | src/types.hpp:88-92 | `a` ranks below `b` iff `a.time > b.time` |
| Types.CompareMsgTimeIsStrictWeakOrder | src/types.hpp:88-92 | the comparator is irreflexive, asymmetric and transitive, and incomparability is transitive |
| Types.TopHasMinimumTime | src/types.hpp:88-92 | no element ranks above a queue element under the comparator iff that element has the minimum time |
| LockedQueues.RunIsFifo | src/LockedQueue.hpp:26-45 | under any interleaving of pushes and pops, the popped values followed by the rest equal the initial contents followed by the pushed values |
| LockedQueues.ApplyIsFifo | src/LockedQueue.hpp:26-45 | one push or pop keeps that FIFO equation |
| LockedQueues.RunSize | src/LockedQueue.hpp:52-55 | final size = initial size + pushes − successful pops |
| LockedQueues.PopsReturnFront | src/LockedQueue.hpp:34-45 | n pops on a queue of at least n elements return its first n elements, in order, and leave the rest |
| LockedQueues.PushesAppend | src/LockedQueue.hpp:26-29 | a run that starts with pushes behaves as the same run on the queue extended by the pushed values |
| LockedQueues.PushesThenPopsReturnInOrder | src/LockedQueue.hpp:26-45 | pushes a1..an on an empty queue, then n pops, return a1..an and leave the queue empty |
| LockedQueues.LockedQueue.Push | src/LockedQueue.hpp:26-29 | the value is appended at the back; earlier elements are untouched |
| LockedQueues.LockedQueue.Pop | src/LockedQueue.hpp:34-45 | on an empty queue: None (nullptr) and no change; otherwise it returns the front and removes only it |
| LockedQueues.LockedQueue.Empty | src/LockedQueue.hpp:47-50 | true iff the queue holds nothing; nothing changes |
| LockedQueues.LockedQueue.Size | src/LockedQueue.hpp:52-55 | the number of elements, 0 iff empty; nothing changes |
| ScheduleQueues.InsertKeepsSorted | src/BackgroundProcess.h:45 | inserting a message before the first pending message of no smaller time keeps the store in time order |
| ScheduleQueues.ScheduleQueue.Empty | src/BackgroundProcess.h:45 | true iff no message is pending |
| ScheduleQueues.ScheduleQueue.Top | src/BackgroundProcess.h:45 | a pending message that no pending message ranks above under compare_msg_time_t |
| ScheduleQueues.ScheduleQueue.Push | src/BackgroundProcess.h:45 | the pending multiset gains exactly the message |
| ScheduleQueues.ScheduleQueue.Pop | src/BackgroundProcess.h:45 | the pending multiset loses exactly the message `top()` designated |
| PdWrappers.SendCall | src/PdWrapper.cc:105-120 | the engine send matches the tag one to one and carries the channel; the message can be read back from it |
| PdWrappers.CreatePatchInfos | src/PdWrapper.cc:88-98 | validity, filename, path and `$0` are copied from the engine patch |
| PdWrappers.PdWrapper.Init | src/PdWrapper.cc:25-42 | engine already inited: false and no engine call. Otherwise one un-queued init with the configured channels and rate. Then: false on status 0, else audio computation on and true. |
| PdWrappers.PdWrapper.OpenPatch | src/PdWrapper.cc:56-65 | one open call. A valid patch is registered under its `$0` unless that key is taken; an invalid one leaves the registry as it was. The description copies the patch. |
| PdWrappers.PdWrapper.ClosePatch | src/PdWrapper.cc:67-86 | `$0` 0, or unregistered: default description, no change. Registered: one engine close, only that key erased, the closed patch described. |
| PdWrappers.PdWrapper.SendMessage | src/PdWrapper.cc:105-120 | exactly one engine send, the one for the message's tag; registry and init state unchanged |
| PdWrappers.PdWrapper.SendDirect | src/NodePd.cpp:355-400 | the legacy direct sends: exactly one engine send carrying the message |
| PdWrappers.PdWrapper.WriteArray | src/PdWrapper.cc:141-142 | one engine write with the given name, samples, length and offset; its answer is returned |
| PdWrappers.PdWrapper.ReadArray | src/PdWrapper.cc:145-146 | one engine read with the given name, vector length, length and offset; its answer and vector are returned |
| Receivers.EventMessage | src/PdReceiver.cc:10-38 | print gives a symbol on "print" carrying the text. Every other callback keeps its channel and argument, under the tag of its kind. |
| Receivers.EventMessages | src/PdReceiver.cc:10-38 | one queued message per callback, in callback order |
| Receivers.PdReceiver.Print | src/PdReceiver.cc:10-16 | appends one SYMBOL message on channel "print" holding the text |
| Receivers.PdReceiver.ReceiveBang | src/PdReceiver.cc:19-22 | appends one BANG message on the channel |
| Receivers.PdReceiver.ReceiveFloat | src/PdReceiver.cc:24-27 | appends one FLOAT message carrying the number |
| Receivers.PdReceiver.ReceiveSymbol | src/PdReceiver.cc:29-33 | appends one SYMBOL message carrying the symbol |
| Receivers.PdReceiver.ReceiveList | src/PdReceiver.cc:35-38 | appends one LIST message carrying the list unchanged |
| Receivers.PdReceiver.ReceiveMessages | src/BackgroundProcess.cc:50 | a run of engine callbacks appends their messages in order, earlier elements untouched |
| LegacyReceivers.LegacyEventMessages | src/PdReceiver.cpp:10-33 | the legacy receiver queues at most one message per callback |
| LegacyReceivers.LegacyIsLiveWithoutPrints | src/PdReceiver.cpp:10-33 | the legacy receiver queues exactly what the live one queues for the same callbacks with the prints removed |
| LegacyReceivers.LegacyAgreesWithoutPrints | src/PdReceiver.cpp:15-33 | with no print among the callbacks, both receivers queue the same messages |
| LegacyReceivers.LegacyPdReceiver.Print | src/PdReceiver.cpp:10-12 | print leaves the queue unchanged |
| LegacyReceivers.LegacyPdReceiver.ReceiveBang | src/PdReceiver.cpp:15-18 | appends one BANG message |
| LegacyReceivers.LegacyPdReceiver.ReceiveFloat | src/PdReceiver.cpp:20-23 | appends one FLOAT message |
| LegacyReceivers.LegacyPdReceiver.ReceiveSymbol | src/PdReceiver.cpp:25-28 | appends one SYMBOL message |
| LegacyReceivers.LegacyPdReceiver.ReceiveList | src/PdReceiver.cpp:30-33 | appends one LIST message with the list unchanged |
| LegacyReceivers.LegacyPdReceiver.ReceiveMessages | src/BackgroundProcess.cpp:46 | a run of callbacks appends the legacy messages for them |
| Callbacks.AtomValue | src/BackgroundProcess.cc:99-107 | a float element becomes a number and a symbol element a string |
| Callbacks.AtomValues | src/BackgroundProcess.cc:96-107 | the host array has the list's length, and element i is the value of list element i |
| Callbacks.CallbackArgs | src/BackgroundProcess.cc:74-111 | the channel comes first as a string; a bang has 1 argument, every other kind 2 |
| Callbacks.CallbackCalls | src/BackgroundProcess.cc:71-113 | one argument list per message, in queue order |
| Callbacks.ParseAtomValues | src/BackgroundProcess.cc:96-107 | the list can be read back from its host array |
| Callbacks.ParseCallbackArgs | src/BackgroundProcess.cc:74-111 | the whole message, channel, kind and payload, can be read back from its callback arguments |
| Callbacks.CallbackArgsInjective | src/BackgroundProcess.cc:74-111 | two different messages never give the host the same call |
| Callbacks.ListToArray | src/BackgroundProcess.cc:96-107 | the element loop builds exactly the host array of the list |
| Callbacks.MessageToArgs | src/BackgroundProcess.cc:76-112 | the switch on the tag builds exactly the callback arguments of the message |
| BackgroundProcesses.DrainTakesExactlyTheDue | src/BackgroundProcess.cc:41-45 | after a drain that conserves the messages, sends only due ones and leaves only later ones: exactly the due ones were sent, each as often as pending, and the later ones are untouched |
| BackgroundProcesses.DrainOrderedStep | src/BackgroundProcess.cc:41-45 | sending a due pending message of minimum time keeps the sent trace sorted, and no earlier than anything still pending |
| BackgroundProcesses.DrainStep | src/BackgroundProcess.cc:41-45 | the same step extends the engine trace by that message's send |
| BackgroundProcesses.ForwardEarliest | src/BackgroundProcess.cc:42-44 | sends a pending message of minimum time to the engine and removes only it; when that message is due, a drain under way stays in time order |
| BackgroundProcesses.DrainDue | src/BackgroundProcess.cc:35-45 | forwards exactly the multiset of pending messages with time ≤ horizon, each once, in non-decreasing time. What stays pending is exactly the later ones. The engine sees one send per forwarded message, in order. |
| BackgroundProcesses.DrainInbound | src/BackgroundProcess.cc:71-113 | empties the inbound queue with one callback per message in pop order; an empty queue gives none |
| BackgroundProcesses.ActiveRun | src/BackgroundProcess.cc:34 | the iterations run over the leading ticks during which the stream is active, and stop at the first inactive one |
| BackgroundProcesses.ExecuteStep | src/BackgroundProcess.cc:31-66 | one more iteration extends the conservation, the engine trace and the per-iteration ordering of the run |
| BackgroundProcesses.ActiveRunStep | src/BackgroundProcess.cc:34 | an active tick right after fewer than the leading active ticks is one of them |
| BackgroundProcesses.SentExactlyStep | src/BackgroundProcess.cc:41-45 | an iteration that forwards exactly the due messages of what it was offered extends SentExactly |
| BackgroundProcesses.KeptExactlyStep | src/BackgroundProcess.cc:41-45 | an iteration that keeps exactly the later messages of what it was offered extends KeptExactly |
| BackgroundProcesses.RunStep | src/BackgroundProcess.cc:34-45 | an iteration that forwards, in time order, exactly the due messages of what was pending plus just scheduled, and keeps exactly the later ones, extends RunSoFar |
| BackgroundProcesses.NotifiedStep | src/BackgroundProcess.cc:50-55 | an iteration whose receiver appended the tick's messages, and which raised the flag iff the queue is then non-empty, extends Notified |
| BackgroundProcesses.NothingReceivedIsLost | src/BackgroundProcess.cc:50-113 | what the progress callbacks popped, followed by what is still queued, is the initial queue followed by the receiver's messages tick by tick: nothing is lost, duplicated or reordered |
| BackgroundProcesses.UndrainedQueueOnlyGrows | src/BackgroundProcess.cc:50-56 | with no progress callback during the ticks, nothing is popped and the queue is the initial one plus the receiver's messages |
| BackgroundProcesses.DrainedTickFlag | src/BackgroundProcess.cc:52-56 | after a progress callback emptied the queue, an iteration raises the flag iff its own receiveMessages queued something |
| BackgroundProcesses.DeliveredStep | src/BackgroundProcess.cc:69-113 | a tick whose progress callback drained the queue adds one callback per queued message, in order; another tick adds none |
| BackgroundProcesses.CompleteRunForwardsEveryDue | src/BackgroundProcess.cc:41-45 | in a complete run, a message offered to an iteration and due by its horizon is forwarded by it and not kept pending |
| BackgroundProcesses.ForwardingNothingIsIncomplete | src/BackgroundProcess.cc:41-45 | an iteration that forwards nothing while a due message is pending does not make a complete run |
| BackgroundProcesses.BackgroundProcess.AddScheduledMessage | src/BackgroundProcess.cc:25-28 | exactly one pending entry added, none removed |
| BackgroundProcesses.BackgroundProcess.ScheduleAll | src/BackgroundProcess.cc:25-28 | a sequence of scheduling calls adds exactly those messages |
| BackgroundProcesses.BackgroundProcess.Iterate | src/BackgroundProcess.cc:35-56 | one iteration: the drain to `currentTime + bufferDuration` as for DrainDue; the receiver's messages appended to the inbound queue; the flag raised iff that queue is not empty. Exactly the messages later than the horizon stay pending. |
| BackgroundProcesses.BackgroundProcess.Execute | src/BackgroundProcess.cc:31-66 | one iteration per tick while the stream is active (RunSoFar, Notified). Everything forwarded plus everything pending equals what was pending plus everything scheduled, and the engine saw exactly those sends. Each iteration forwards in time order exactly the messages due by its own horizon among those pending before it and just scheduled, and leaves exactly the later ones pending. Before an iteration the host's progress callback may have emptied the inbound queue (`Tick.drained`); the iteration's receiver then appends its messages, and the flag is raised iff the queue holds something after that (Notified), so it drops again once the host has caught up. The progress callback's calls, in order, are `delivered`: one per popped message (Delivered). |
| BackgroundProcesses.BackgroundProcess.RunTick | src/BackgroundProcess.cc:34-56 | one pass of the loop: the host's progress callback when the tick has one, the host's scheduling, then one iteration; extends RunSoFar, Notified and Delivered by one tick |
| BackgroundProcesses.BackgroundProcess.OnProgress | src/BackgroundProcess.cc:69-114 | drains the inbound queue to empty, one callback per message with the per-kind arguments |
| LegacyBackgroundProcesses.LegacyBackgroundProcess.AddScheduledMessage | src/BackgroundProcess.cpp:22-24 | exactly one pending entry added, none removed |
| LegacyBackgroundProcesses.LegacyBackgroundProcess.ScheduleAll | src/BackgroundProcess.cpp:22-24 | a sequence of scheduling calls adds exactly those messages |
| LegacyBackgroundProcesses.LegacyBackgroundProcess.Iterate | src/BackgroundProcess.cpp:33-52 | the same drain as the live iteration, keeping exactly the later messages pending, and the same flag, with the legacy receiver's messages |
| LegacyBackgroundProcesses.LegacyBackgroundProcess.Execute | src/BackgroundProcess.cpp:29-63 | the same run properties as the live Execute (RunSoFar): each iteration forwards exactly what is due by its horizon and keeps exactly the rest. As in the live run, the progress callback may empty the inbound queue before an iteration, the legacy receiver's messages are appended during it, and the flag is raised iff the queue then holds something (LegacyNotified); the callback's calls are `delivered` (LegacyDelivered). |
| LegacyBackgroundProcesses.LegacyBackgroundProcess.RunTick | src/BackgroundProcess.cpp:32-51 | one pass of the loop, with the progress callback and scheduling before it, extends RunSoFar, LegacyNotified and LegacyDelivered by one tick |
| LegacyBackgroundProcesses.LegacyNotifiedStep | src/BackgroundProcess.cpp:44-51 | an iteration whose receiver appended the tick's legacy messages, and which raised the flag iff the queue is then non-empty, extends LegacyNotified |
| LegacyBackgroundProcesses.LegacyNothingReceivedIsLost | src/BackgroundProcess.cpp:44-129 | as in the live target: popped followed by still queued is the initial queue followed by the legacy receiver's messages |
| LegacyBackgroundProcesses.LegacyDrainedTickFlag | src/BackgroundProcess.cpp:46-51 | after a progress callback emptied the queue, the flag is raised iff the legacy receiver queued something in that iteration |
| LegacyBackgroundProcesses.LegacyDeliveredStep | src/BackgroundProcess.cpp:76-129 | a draining tick adds one callback per queued message, in order; another tick adds none |
| LegacyBackgroundProcesses.LegacyBackgroundProcess.HandleProgressCallback | src/BackgroundProcess.cpp:69-130 | drains to empty with the same per-kind arguments as the live OnProgress |
| JsValues.ToInt32 | src/NodePd.cc:137 | ECMAScript ToInt32 on a finite number: in the 32-bit signed range, congruent to the truncation modulo 2^32, and equal to it when it already fits |
| HostValues.Int32Value | src/NodePd.cc:135-151 | a number gives its 32-bit ToInt32; any other value is a type error |
| HostValues.ListAtoms | src/NodePd.cc:611-633 | the list built from a host array has at most the array's length |
| HostValues.ListAtomsAppend | src/NodePd.cc:618-630 | elements are kept or dropped one by one: the list of a concatenation is the concatenation of the lists |
| HostValues.ListAtomsKeepsAll | src/NodePd.cc:618-630 | nothing is dropped iff every element is a number or a string |
| HostValues.ListAtomsNone | src/NodePd.cc:615-633 | an array with no number and no string gives the empty list |
| HostValues.ListAtomsOfAtomValues | src/NodePd.cc:611-633 | the host array handed out for a list reads back as that list when sent |
| HostValues.CollectAtoms | src/NodePd.cc:618-630 | the element loop builds exactly that list, in array order |
| HostValues.Classify | src/NodePd.cc:601-643 | string iff symbol, number iff float, non-empty array iff list (possibly empty), anything else (the empty array too) iff bang; the payload carries the value |
| HostValues.SendTime | src/NodePd.cc:594-598 | the third argument when it is a number, else 0 |
| HostValues.SendEchoesReceived | src/NodePd.cc:601-643 | sending back what a listener received reproduces the payload, except that an empty list comes back as a bang |
| HostValues.HasPatchKeys | src/NodePd.cc:513-514 | the value has all four of `$0`, `filename`, `path` and `isValid` as properties |
| HostValues.PatchObject | src/NodePd.cc:480-490 | the object has exactly the four patch properties, with `$0` and `isValid` from the description |
| HostValues.ClosedPatchFields | src/NodePd.cc:522-523 | only `$0` and `isValid` are set, from the close's description; every other property is kept |
| HostValues.PatchObjectDollarZero | src/NodePd.cc:519 | the `$0` closePatch reads from an object openPatch made is the patch's own |
| NodePds.InitArgsValid | src/NodePd.cc:122-124 | exactly three arguments: an object in the `IsObject` sense (arrays and functions included), a boolean and a function |
| NodePds.OptionOr | src/NodePd.cc:133-151 | an absent key keeps the current value; a present one gives its ToInt32 when it is a number, and no value (a type error) otherwise |
| NodePds.BufferDuration | src/NodePd.cc:162-163 | duration × rate = blockSize × ticks frames |
| NodePds.DeriveConfig | src/NodePd.cc:135-163 | defined iff every present option is a number. Each present option overrides the current value through ToInt32. The block size is the engine's, `framesPerBuffer = blockSize*ticks`, and the duration is frames over rate. |
| NodePds.DeriveConfigWithoutOptions | src/NodePd.cc:135-151 | with no options the channels, rate and ticks are the current ones |
| NodePds.DeriveConfigIgnoresOtherKeys | src/NodePd.cc:135-151 | a property initialize does not read changes nothing |
| NodePds.WriteArrayArgsAsWritten | src/NodePd.cc:724-733 | as written: the offset passed on is always 0, and a numeric fourth argument becomes the length |
| NodePds.WriteArrayArgs | src/NodePd.cc:724-733 | as documented: the length is the third argument or the data length, the offset the fourth argument or 0 |
| NodePds.WriteArrayOffsetIsLost | src/NodePd.cc:724-733 | `writeArray(name, data4, 4, 2)` passes (2, 0) as written and (4, 2) as documented |
| NodePds.WriteArrayArgsIndependent | src/NodePd.cc:724-733 | in the documented handling, each of length and offset depends on its own argument only |
| NodePds.CopyBackIndicesAsWritten | src/NodePd.cc:782-784 | the loop as written stores at offset, offset+1, … up to readLen, with no bound |
| NodePds.CopyBackOverrunsBuffer | src/NodePd.cc:782-784 | reading 8 samples into a 4-sample buffer stores at index 4 |
| NodePds.CopyBack | src/NodePd.cc:782-784 | each index from the offset up to readLen that both the buffer and the engine's vector hold is copied; every other sample is unchanged |
| NodePds.NodePd.constructor | src/NodePd.cc:63-85 | default configuration 1/2 channels at 48000 Hz and 1 tick, not initialized, empty queue and registry |
| NodePds.NonPlainOptionsKeepCurrent | src/NodePd.cc:123-153 | an array or a function passes the argument check as the options, and keeps the current channels, rate and ticks |
| NodePds.NodePd.Initialize | src/NodePd.cc:120-206 | Err iff the arguments are not (object in the `IsObject` sense, which includes arrays and functions; boolean; function) or, on the first call, an option is not a number. The first call derives the configuration once, inits the engine and starts the process, and answers true whatever the engine said. Later calls change nothing and answer the flag. |
| NodePds.NodePd.OpenPatch | src/NodePd.cc:464-493 | Err before init or unless both arguments are strings. Otherwise the wrapper's open, and the description as a plain object. |
| NodePds.NodePd.ClosePatch | src/NodePd.cc:499-529 | Err before init, or on a value lacking `$0`/`filename`/`path`/`isValid` or with a non-numeric `$0`. Otherwise the wrapper's close of ToInt32(`$0`), and the object with only `$0` and `isValid` updated. |
| NodePds.NodePd.Send | src/NodePd.cc:578-646 | Err before init or for a non-string channel. Otherwise exactly one message is scheduled: channel, Classify(value), SendTime(time). |
| NodePds.NodePd.WriteArray | src/NodePd.cc:701-737 | Err before init or for a non-string name. Otherwise one engine write with the documented length and offset, and the engine's answer. |
| NodePds.NodePd.ReadArray | src/NodePd.cc:745-787 | Err before init or for a non-string name. Otherwise one engine read with readLen (default buffer length) and offset (default 0), and the bounded copy-back. |
| LegacyNodePds.TruncDiv | src/NodePd.cpp:154 | C++ integer division: the Euclidean quotient for non-negative operands, truncated toward zero for a negative dividend |
| LegacyNodePds.LegacyBufferDuration | src/NodePd.cpp:154 | as written: for a positive rate and non-negative frames, the integer quotient frames / rate |
| LegacyNodePds.LegacyLookAheadIsZero | src/NodePd.cpp:154 | 64 frames at 44100 Hz: legacy look-ahead 0, live 64/44100 |
| LegacyNodePds.LegacyLookAheadBelowOneSecond | src/NodePd.cpp:154 | whenever a buffer lasts less than a second, the legacy look-ahead is 0 and the intended one positive |
| LegacyNodePds.LegacyDefaultHorizonIsNow | src/BackgroundProcess.cpp:34-36 | with the default legacy configuration on 64-frame blocks the horizon is the current time itself |
| LegacyNodePds.LegacyOption | src/NodePd.cpp:131-141 | a present numeric option gives its ToInt32; any other value keeps the current one |
| LegacyNodePds.LegacyDeriveConfig | src/NodePd.cpp:106-154 | frames = blockSize × ticks and the integer look-ahead. A non-object argument keeps the current channels, rate and ticks. |
| LegacyNodePds.LegacyConfigAgreesOnNumbers | src/NodePd.cpp:131-154 | on all-numeric options both targets derive the same channels, rate, ticks and frames |
| LegacyNodePds.LegacySendMessage | src/NodePd.cpp:345-401 | nothing is sent iff the value is the empty array; otherwise one message on the channel: symbol, float, list of numbers and strings, or bang |
| LegacyNodePds.LegacySendAgreesWithLive | src/NodePd.cpp:345-401 | both targets classify alike, except for the empty array: a bang in one, nothing in the other |
| LegacyNodePds.LegacyDollarZero | src/NodePd.cpp:293 | `$0` as NumberValue then int: a number truncated, a boolean 0/1, null 0 |
| LegacyNodePds.LegacyNodePd.constructor | src/NodePd.cpp:39-56 | default configuration 1/2 channels at 44100 Hz and 1 tick, not initialized |
| LegacyNodePds.LegacyNodePd.Init | src/NodePd.cpp:102-185 | Once initialized: null and no change. Otherwise it derives the configuration, inits the engine, starts a process, and answers pdInitialized && paInitialized, which becomes the flag. |
| LegacyNodePds.LegacyNodePd.ClosePatch | src/NodePd.cpp:274-309 | "patch is not an object" for a non-object, and "Invalid patch" when an own property is missing, both with no engine call. Otherwise the wrapper's close, with only `isValid` and `$0` updated. |
| LegacyNodePds.LegacyNodePd.Send | src/NodePd.cpp:345-401 | at most one immediate engine send, the one LegacySendMessage gives; no init check |
| Listeners.BalancedCounts | getInstance.js:45-71 | in a balanced native trace a channel has one more native subscribe than unsubscribe while subscribed, and as many otherwise |
| Listeners.IndexOf | getInstance.js:59 | the first position of the callback, or -1 iff absent |
| Listeners.RemoveFirst | getInstance.js:58-64 | only the first occurrence is removed, and nothing if absent. As multisets: one fewer of it. |
| Listeners.RegistrySubscribe | getInstance.js:45-52 | the callback is appended at the end of its channel's list, created if absent; other channels untouched |
| Listeners.RegistryUnsubscribe | getInstance.js:54-71 | unknown channel: no-op. No callback: the channel is deleted. A callback: its first occurrence is removed, and the channel deleted if that empties it. Other channels untouched. |
| Listeners.Invocations | getInstance.js:10-19 | one call per listener of the channel, in list order, each with the value; none for an absent channel |
| Listeners.DispatchAfterSubscribe | getInstance.js:10-52 | a callback subscribed last is called last, after those already there |
| Listeners.SubscribeThenUnsubscribe | getInstance.js:45-71 | subscribing a callback not yet on the channel and then unsubscribing it restores the dictionary |
| Listeners.UnsubscribeCallsOnceLess | getInstance.js:54-71 | after unsubscribing a callback, it receives each message once less and the others as before |
| Listeners.UnsubscribeAllSilences | getInstance.js:54-71 | after an unsubscribe without a callback, nothing on that channel is called |
| Listeners.RegistrySplice | getInstance.js:57-64 | the known channel keeps its key and loses one occurrence of the callback (as multisets); no callback, or an unknown channel, changes nothing; other channels untouched |
| Listeners.UnsubscribeIsSpliceThenDelete | getInstance.js:54-71 | unsubscribe is the splice, then the deletion of the channel exactly when `_unsubscribe` is called; that is exactly when a known channel disappears |
| Listeners.UnsubscribeKeepsTracked | getInstance.js:54-71 | whatever `_unsubscribe` does, every channel subscribed natively keeps a list, after the splice and after the deletion |
| Listeners.UnsubscribeInvariants | getInstance.js:54-71 | across one unsubscribe: the strict invariant holds after the native call succeeds or is not made; the weak one holds in every outcome |
| Listeners.UnsubscribeOn | getInstance.js:54-71 | no native call: the dictionary becomes RegistryUnsubscribe. `_unsubscribe` succeeds: the same, plus one native unsubscribe. It throws: the error, and the spliced dictionary (RegistrySplice) with the channel kept |
| Listeners.SpliceFirst | getInstance.js:59-63 | `indexOf` then `splice(index, 1)` removes exactly what RemoveFirst removes |
| Listeners.UnsubscribeKeepsBalance | getInstance.js:54-71 | after an unsubscribe the lists stay non-empty, the native trace stays balanced, and the subscribed channels stay exactly the keys |
| Listeners.DispatchTo | getInstance.js:16-18 | the forEach makes exactly those calls, in order |
| Listeners.InitOptions | getInstance.js:23 | an undefined argument defaults to an empty object |
| Listeners.ListenerRegistry.constructor | getInstance.js:7-21 | empty dictionary, not initialized, no native call |
| Listeners.ListenerRegistry.Init | getInstance.js:21-29 | `_initialize` is called only while not initialized, and its answer is cached; once initialized it answers true with no native call |
| Listeners.ListenerRegistry.Subscribe | getInstance.js:45-52 | a known channel: the callback is appended, with no native call. A new channel: `_subscribe` is called. When it succeeds, the dictionary becomes RegistrySubscribe and one native subscribe is recorded. When it throws, the error passes through and the channel is left with an empty list. Valid is kept unless `_subscribe` throws; Tracked is always kept. |
| Listeners.ListenerRegistry.Unsubscribe | getInstance.js:54-71 | without a native call the dictionary becomes RegistryUnsubscribe. When `_unsubscribe` succeeds, likewise, plus one native unsubscribe. When it throws, the error passes through and the spliced list stays (RegistrySplice). Valid is kept unless `_unsubscribe` throws; Tracked is always kept. |
| Listeners.ListenerRegistry.Dispatch | getInstance.js:10-19 | the calls Invocations gives (the same DispatchTo as the legacy OnMessage) |
| LegacyListeners.LegacyUnsubscribe | index.js:56-68 | an unregistered callback leaves the dictionary unchanged. Otherwise its first occurrence is removed, and the channel deleted when that empties it. |
| LegacyListeners.LegacyUnsubscribeAgrees | index.js:56-68 | on a registered channel the legacy unsubscribe does what getInstance.js does with that callback |
| LegacyListeners.LegacyUnsubscribeOnlyCallback | index.js:60-66 | unsubscribing a channel's only callback deletes the channel |
| LegacyListeners.LegacyListenerRegistry.constructor | index.js:24-38 | empty dictionary, and the message callback installed natively |
| LegacyListeners.LegacyListenerRegistry.Subscribe | index.js:47-54 | native subscribe only for a channel's first callback; always appends |
| LegacyListeners.LegacyListenerRegistry.Unsubscribe | index.js:56-68 | on a channel that has a list: the dictionary becomes LegacyUnsubscribe. A native unsubscribe happens iff the channel is deleted. |
| LegacyListeners.LegacyListenerRegistry.OnMessage | index.js:28-35 | the value goes to each callback of the channel, in order; none if there is no list (the same DispatchTo as the live Dispatch) |
| PatchPaths.LastSlash | getInstance.js:36-37 | the index of the last '/', -1 iff there is none |
| PatchPaths.Dirname | getInstance.js:37 | non-empty; "." for a path without '/', "/" for a path whose only '/' is the first character; otherwise a proper prefix of the path followed in it by its last '/' |
| PatchPaths.Basename | getInstance.js:36 | the basename holds no '/'; a path without '/' is its own basename |
| PatchPaths.DirnameBasenameJoin | getInstance.js:36-37 | a path with a '/' past its first character is dirname + "/" + basename |
| PatchPaths.BareFilename | getInstance.js:36-37 | a path without '/' is a file in "." |
| PatchPaths.OpenPatchArgsAsWritten | getInstance.js:34-43 | as written: the one-argument form throws, since `path` is never required; otherwise the first two arguments, undefined when missing |
| PatchPaths.OpenPatchArgs | getInstance.js:34-43 | as intended: one string argument gives its basename and dirname, a non-string one throws; the other forms as written |
| PatchPaths.OneArgumentFormThrows | getInstance.js:32-38 | `openPatch('/patches/main.pd')` throws as written, and gives ("main.pd", "/patches") as intended |
| PatchPaths.OpenPatchConventionsAgree | getInstance.js:31-43 | as intended, `openPatch(dir + '/' + file)` and `openPatch(file, dir)` pass the same filename and directory |

## Left out

- Threads, locks and pacing are not modelled; each queue or scheduler operation is one atomic step. This covers the mutex, `progress.Send`, `Pa_Sleep` and the spin-wait on the clock in `initialize`.
- Time is not a clock here. The current time and stream activity of each worker iteration are inputs (`Tick`).
- The PortAudio wrapper (streams, devices) and the device-listing, GUI, search-path, clear and destroy calls are not part of this model.
- The libpd engine's own behaviour is not modelled. Its calls are a trace, and what it answers is a parameter. The engine callbacks of one `receiveMessages` are an input sequence.
- Floating point is modelled as reals: no `float` narrowing of payloads, no rounding, and no NaN or infinities.
- NodePds.BufferDuration: a sample rate of 0 gives 0.0 here, where the source's double division gives an infinity or NaN.
- LegacyNodePds.LegacyBufferDuration: a sample rate of 0 gives 0.0 here, where the source's integer division by zero is undefined.
- Integer overflow of `blockSize * ticks` and of the `int` cast of a large double is not modelled; integers are unbounded.
- ScheduleQueues.ScheduleQueue.Pop: the order among messages with equal times is not promised, because `std::priority_queue` is not stable.
- A host error raised with `ThrowAsJavaScriptException` ends the modelled call with `Err` and no effect. The live source in fact goes on after the throw (e.g. `Send` still reads the channel). What those continued steps do is not modelled.
- `initialize`'s second argument (compute audio) is not modelled. In the source, `NodePd.cc` calls `init(config, compute_audio)`, while `PdWrapper.cc` defines `init(config)`; the model follows `PdWrapper.cc`.
- `getInstance.js` calls `_initialize(options, dispatch)` with two arguments, which the native check for exactly three rejects. Listeners.ListenerRegistry.Init takes the native answer as a parameter, so both outcomes are covered.
- Host objects have own properties only. Prototype-chain lookups (N-API `Has`, a JavaScript dictionary key such as `constructor`) are not modelled.
- LegacyNodePds.LegacyNodePd.ClosePatch: a `$0` that is not a number, a boolean or null answers `Err` here. The source converts it through ToNumber, and a NaN turned into `int` is undefined behaviour.
- LegacyNodePds.LegacyNodePd.Send: the channel is taken as a string. The source converts a non-string channel with ToString after printing a warning.
- `writeArray`/`readArray` with a data argument that is not a typed array is not modelled: the buffers are sequences and arrays of reals.
- The legacy `init` constructs its background process with arguments that do not match the legacy `BackgroundProcess` constructor. Its `send` calls wrapper methods that the legacy `PdWrapper.cpp` has commented out. The model follows the evident intent: the process shares the configuration, queue, wrapper and receiver, and each send is one engine send.
- The legacy audio-stream result (paInitialized) is a parameter of LegacyNodePds.LegacyNodePd.Init.
- PatchPaths.Dirname and PatchPaths.Basename: trailing and repeated slashes are taken literally; Node's `path` strips them first.
- NodePds.NodePd.WriteArray: follows the documented argument handling (WriteArrayArgs: the length from the third argument, the offset from the fourth). The source hands the engine WriteArrayArgsAsWritten's pair instead: a numeric fourth argument becomes the length, and the offset is 0. See Findings.
- NodePds.NodePd.ReadArray: the copy-back is bounded (CopyBack). Only indices that are at least 0 and inside both the buffer and the engine's vector are stored. The source's loop stores every index from the offset up to readLen unchecked. That includes a negative offset and indices past either end, which is undefined behaviour. See Findings.
- LegacyNodePds.LegacyNodePd.ClosePatch: the returned object stands for the caller's own patch object after `Nan::Set` has updated `isValid` and `$0` in place. The legacy call itself returns `undefined`. NodePds.NodePd.ClosePatch likewise returns the caller's object, which it updates in place; that sharing (aliasing) is not modelled.
- Listeners.ListenerRegistry.Subscribe and Listeners.ListenerRegistry.Unsubscribe: a `_subscribe` or `_unsubscribe` that throws is modelled as having no native effect and is not recorded. Before `init` the native code in fact goes on to pass the channel to the engine after raising its error.
- Calling a listener is recorded as an invocation; what the listener does (including re-entrant subscription changes) is not modelled.

## Findings

| source | as written | input that shows it | evidently intended | confidence | as-written member | corrected member |
|---|---|---|---|---|---|---|
| src/NodePd.cc:724-733 | the fourth argument is assigned to `writeLen`; the offset passed to the engine is always 0 | `writeArray(name, data, 4, 2)` with 4 samples writes 2 samples at offset 0 | length from the third argument, offset from the fourth | not executed | NodePds.WriteArrayOffsetIsLost | NodePds.WriteArrayArgsIndependent |
| src/NodePd.cc:782-784 | the copy-back loop stores `buf[i]` for every i from offset to readLen, unchecked against the buffer's or the vector's length | `readArray(name, new Float32Array(4), 8)` stores at index 4 of a 4-sample buffer | copy only the indices both the buffer and the engine's vector hold | not executed | NodePds.CopyBackOverrunsBuffer | NodePds.CopyBack |
| getInstance.js:36-37 | the one-argument form calls `path.basename` and `path.dirname`, but the file only requires `bindings`, so `path` is undefined | `openPatch('/patches/main.pd')` throws a ReferenceError | split the path into basename and dirname, as the comment at line 32 says | not executed | PatchPaths.OneArgumentFormThrows | PatchPaths.OpenPatchConventionsAgree |
| src/NodePd.cpp:154 | `blockSize * ticks / sampleRate` is an integer division, truncated before it is stored as a double | 64 frames at 44100 Hz give a look-ahead of 0, so an iteration forwards only messages already due | the duration of one buffer in seconds, as the live target computes it | not executed | LegacyNodePds.LegacyLookAheadIsZero | NodePds.BufferDuration |
