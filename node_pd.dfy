/**
 * NodePd (live target): the object the host holds. It owns the inbound
 * queue, the engine wrapper and the receiver from the start, derives the
 * audio configuration and starts the background process on its first
 * successful `initialize`, and from then on turns host calls into scheduled
 * messages, patch operations and array transfers.
 *
 * Every host-facing method answers a `Result`: `Err` where the source raises
 * a host exception, and then nothing changes.
 */
module NodePds {
  import opened Wrappers
  import opened Types
  import opened JsValues
  import opened LockedQueues
  import opened ScheduleQueues
  import opened PdWrappers
  import opened Receivers
  import opened BackgroundProcesses
  import opened HostValues

  const DefaultNumInputChannels: int := 1
  const DefaultNumOutputChannels: int := 2
  const DefaultSampleRate: int := 48000
  const DefaultNumTicks: int := 1

  /**
   * The configuration of a fresh instance. blockSize, framesPerBuffer and
   * bufferDuration are left uninitialised by the source until the first
   * initialize; they are 0 here.
   */
  const DefaultConfig: AudioConfig :=
    AudioConfig(DefaultNumInputChannels, DefaultNumOutputChannels, DefaultSampleRate, 0, DefaultNumTicks, 0, 0.0)

  /** The option keys `initialize` reads. */
  const InputChannelsKey: string := "numInputChannels"
  const OutputChannelsKey: string := "numOutputChannels"
  const SampleRateKey: string := "sampleRate"
  const TicksKey: string := "ticks"

  /** An option: its Int32Value when the key is present, the current value otherwise. */
  function OptionOr(options: map<string, JsValue>, key: string, current: int): (r: Option<int>)
    ensures key !in options ==> r == Some(current)
    ensures key in options ==> (r.Some? <==> options[key].Number?)
    ensures key in options && options[key].Number? ==> r == Some(ToInt32(options[key].n))
  {
    if key in options then Int32Value(options[key]) else Some(current)
  }

  /** Every option `initialize` reads that is present is a number. */
  predicate OptionsAreNumbers(options: map<string, JsValue>) {
    && (InputChannelsKey in options ==> options[InputChannelsKey].Number?)
    && (OutputChannelsKey in options ==> options[OutputChannelsKey].Number?)
    && (SampleRateKey in options ==> options[SampleRateKey].Number?)
    && (TicksKey in options ==> options[TicksKey].Number?)
  }

  /** The look-ahead of one iteration: the duration of one buffer, in seconds (0 for a zero rate). */
  function BufferDuration(blockSize: int, ticks: int, sampleRate: int): (d: real)
    ensures sampleRate != 0 ==> d * sampleRate as real == (blockSize * ticks) as real
  {
    if sampleRate == 0 then 0.0 else (blockSize as real) * (ticks as real) / (sampleRate as real)
  }

  /**
   * The configuration the first initialize derives: each option present
   * overrides the current value, the engine's block size is recorded, a
   * buffer is `blockSize * ticks` frames long and lasts that many frames at
   * the sample rate. A present option that is not a number is a type error.
   */
  function DeriveConfig(current: AudioConfig, options: map<string, JsValue>, blockSize: int): (r: Option<AudioConfig>)
    ensures r.Some? <==> OptionsAreNumbers(options)
    ensures r.Some? ==> Some(r.value.numInputChannels) == OptionOr(options, InputChannelsKey, current.numInputChannels)
    ensures r.Some? ==> Some(r.value.numOutputChannels) == OptionOr(options, OutputChannelsKey, current.numOutputChannels)
    ensures r.Some? ==> Some(r.value.sampleRate) == OptionOr(options, SampleRateKey, current.sampleRate)
    ensures r.Some? ==> Some(r.value.ticks) == OptionOr(options, TicksKey, current.ticks)
    ensures r.Some? ==> r.value.blockSize == blockSize && r.value.framesPerBuffer == blockSize * r.value.ticks
    ensures r.Some? && r.value.sampleRate != 0 ==>
      r.value.bufferDuration * r.value.sampleRate as real == r.value.framesPerBuffer as real
  {
    match (OptionOr(options, InputChannelsKey, current.numInputChannels),
           OptionOr(options, OutputChannelsKey, current.numOutputChannels),
           OptionOr(options, SampleRateKey, current.sampleRate),
           OptionOr(options, TicksKey, current.ticks))
    case (Some(numIn), Some(numOut), Some(rate), Some(ticks)) =>
      Some(AudioConfig(numIn, numOut, rate, blockSize, ticks, blockSize * ticks, BufferDuration(blockSize, ticks, rate)))
    case _ => None
  }

  /** With no options the channel counts, the rate and the ticks are the current ones. */
  lemma DeriveConfigWithoutOptions(current: AudioConfig, blockSize: int)
    ensures DeriveConfig(current, map[], blockSize).Some?
    ensures var c := DeriveConfig(current, map[], blockSize).value;
      c.numInputChannels == current.numInputChannels && c.numOutputChannels == current.numOutputChannels &&
      c.sampleRate == current.sampleRate && c.ticks == current.ticks
  {
  }

  /** A property `initialize` does not read changes nothing. */
  lemma DeriveConfigIgnoresOtherKeys(current: AudioConfig, options: map<string, JsValue>, blockSize: int, key: string, v: JsValue)
    requires key != InputChannelsKey && key != OutputChannelsKey && key != SampleRateKey && key != TicksKey
    ensures DeriveConfig(current, options[key := v], blockSize) == DeriveConfig(current, options, blockSize)
  {
    var options' := options[key := v];
    assert OptionOr(options', InputChannelsKey, current.numInputChannels) == OptionOr(options, InputChannelsKey, current.numInputChannels);
    assert OptionOr(options', OutputChannelsKey, current.numOutputChannels) == OptionOr(options, OutputChannelsKey, current.numOutputChannels);
    assert OptionOr(options', SampleRateKey, current.sampleRate) == OptionOr(options, SampleRateKey, current.sampleRate);
    assert OptionOr(options', TicksKey, current.ticks) == OptionOr(options, TicksKey, current.ticks);
  }

  /** The argument check of initialize: exactly (options, boolean, function), where an array or a function passes as the options object. */
  predicate InitArgsValid(args: seq<JsValue>) {
    |args| == 3 && IsObject(args[0]) && args[1].Bool? && args[2].Function?
  }

  /**
   * An array or a function passes as initialize's options; it carries no
   * option, so the first call keeps the current configuration values.
   */
  lemma NonPlainOptionsKeepCurrent(v: JsValue, computeAudio: bool, callback: nat, current: AudioConfig, blockSize: int)
    requires v.Array? || v.Function?
    ensures InitArgsValid([v, Bool(computeAudio), Function(callback)])
    ensures DeriveConfig(current, OwnProperties(v), blockSize) == DeriveConfig(current, map[], blockSize)
  {
  }

  /** The message one `send(channel, value, time)` schedules. */
  function SendMessageFor(channel: string, value: JsValue, time: JsValue): ScheduledMsg {
    ScheduledMsg(PdMsg(channel, Classify(value)), SendTime(time))
  }

  // The array arguments of writeArray: (name, data, writeLen = data.length, offset = 0).

  /**
   * writeArray's argument handling as the source has it: a numeric fourth
   * argument is stored into the length, and the offset passed on is always 0.
   */
  function WriteArrayArgsAsWritten(dataLength: nat, lenArg: JsValue, offsetArg: JsValue): (r: (int, int))
    ensures r.1 == 0
    ensures r.0 == (if offsetArg.Number? then ToInt32(offsetArg.n) else if lenArg.Number? then ToInt32(lenArg.n) else dataLength)
  {
    var writeLen := if lenArg.Number? then ToInt32(lenArg.n) else dataLength;
    var writeLen' := if offsetArg.Number? then ToInt32(offsetArg.n) else writeLen;
    (writeLen', 0)
  }

  /** writeArray's argument handling as documented: the third argument is the length, the fourth the offset. */
  function WriteArrayArgs(dataLength: nat, lenArg: JsValue, offsetArg: JsValue): (r: (int, int))
    ensures r.0 == (if lenArg.Number? then ToInt32(lenArg.n) else dataLength)
    ensures r.1 == (if offsetArg.Number? then ToInt32(offsetArg.n) else 0)
  {
    (if lenArg.Number? then ToInt32(lenArg.n) else dataLength,
     if offsetArg.Number? then ToInt32(offsetArg.n) else 0)
  }

  /** `writeArray(name, data, 4, 2)` on four samples: as written it writes 2 samples at 0, not 4 at 2. */
  lemma WriteArrayOffsetIsLost()
    ensures WriteArrayArgsAsWritten(4, Number(4.0), Number(2.0)) == (2, 0)
    ensures WriteArrayArgs(4, Number(4.0), Number(2.0)) == (4, 2)
  {
    assert ToInt32(2.0) == 2 && ToInt32(4.0) == 4;
  }

  /** In the documented handling the length and the offset are each set by their own argument only. */
  lemma WriteArrayArgsIndependent(dataLength: nat, lenArg: JsValue, lenArg': JsValue, offsetArg: JsValue, offsetArg': JsValue)
    ensures WriteArrayArgs(dataLength, lenArg, offsetArg).0 == WriteArrayArgs(dataLength, lenArg, offsetArg').0
    ensures WriteArrayArgs(dataLength, lenArg, offsetArg).1 == WriteArrayArgs(dataLength, lenArg', offsetArg).1
  {
  }

  // The copy-back of readArray: each index from the offset up to readLen receives the engine's sample.

  /** The buffer indices the copy-back loop writes as the source has it: offset up to readLen, unchecked. */
  function CopyBackIndicesAsWritten(offset: int, readLen: int): (ix: seq<int>)
    ensures |ix| == if readLen > offset then readLen - offset else 0
    ensures forall k | 0 <= k < |ix| :: ix[k] == offset + k
    decreases readLen - offset
  {
    if readLen <= offset then [] else [offset] + CopyBackIndicesAsWritten(offset + 1, readLen)
  }

  /** `readArray(name, new Float32Array(4), 8)`: the loop as written stores to index 4 of a 4-sample buffer. */
  lemma CopyBackOverrunsBuffer()
    ensures 4 in CopyBackIndicesAsWritten(0, 8)
  {
    assert CopyBackIndicesAsWritten(0, 8)[4] == 4;
  }

  /**
   * Whether a bounded copy-back writes index `i`: from the offset (at least 0)
   * up to readLen, and only where both the buffer and the engine's vector
   * have a sample.
   */
  predicate CopiedBack(i: int, offset: int, readLen: int, bufLength: nat, destLength: nat) {
    0 <= i < bufLength && i < destLength && offset <= i < readLen
  }

  /**
   * The copy-back loop bounded by the buffer and the engine's vector: each
   * index from the offset up to readLen that both hold is copied, every
   * other sample of the buffer is left as it was.
   */
  method CopyBack(buf: array<real>, dest: seq<real>, offset: int, readLen: int)
    modifies buf
    ensures forall i | 0 <= i < buf.Length ::
      buf[i] == (if CopiedBack(i, offset, readLen, buf.Length, |dest|) then dest[i] else old(buf[i]))
  {
    var i := if offset < 0 then 0 else offset;
    while i < readLen && i < buf.Length && i < |dest|
      invariant offset <= i || i == 0
      invariant forall j | 0 <= j < buf.Length ::
        buf[j] == (if j < i && CopiedBack(j, offset, readLen, buf.Length, |dest|) then dest[j] else old(buf[j]))
      decreases buf.Length - i
    {
      buf[i] := dest[i];
      i := i + 1;
    }
  }

  class NodePd {
    /** initialized_ */
    var initialized: bool
    /** audioConfig_ */
    var config: AudioConfig
    /** msgQueue_: shared by the receiver and the background process. */
    const msgQueue: LockedQueue<PdMsg>
    const wrapper: PdWrapper
    const receiver: PdReceiver
    /** backgroundProcess_, created by the first initialize. */
    var process: BackgroundProcess?

    ghost predicate Valid()
      reads this, wrapper, process, (if process != null then {process.sendQueue} else {})
    {
      && wrapper.Valid()
      && receiver.queue == msgQueue
      && (initialized ==>
            && process != null && process.Valid()
            && process.pdWrapper == wrapper && process.receiveQueue == msgQueue
            && process.receiver == receiver && process.config == config)
    }

    /** The constructor: default configuration, a fresh queue, wrapper and receiver, not initialized. */
    constructor ()
      ensures Valid() && !initialized && process == null && config == DefaultConfig
      ensures fresh(msgQueue) && fresh(wrapper) && fresh(receiver)
      ensures msgQueue.items == [] && wrapper.log == [] && !wrapper.engineInited && wrapper.patches == map[]
    {
      initialized := false;
      config := DefaultConfig;
      var queue := new LockedQueue<PdMsg>();
      msgQueue := queue;
      wrapper := new PdWrapper();
      receiver := new PdReceiver(queue);
      process := null;
    }

    /**
     * initialize(options, computeAudio, callback). The first call derives the
     * configuration from the options and the engine's `blockSize`, initialises
     * the engine (which answers `engineStatus`), starts the background process
     * and reports true whatever the engine answered. A later call reconfigures
     * nothing and reports the flag.
     */
    method Initialize(args: seq<JsValue>, blockSize: int, engineStatus: int) returns (r: Result<bool>)
      requires Valid()
      modifies this, wrapper
      ensures Valid()
      ensures r.Err? ==> unchanged(this) && unchanged(wrapper)
      ensures r.Err? <==> !InitArgsValid(args) || (!old(initialized) && !OptionsAreNumbers(OwnProperties(args[0])))
      ensures old(initialized) ==> unchanged(this) && unchanged(wrapper)
      ensures r.Ok? ==> r.value && initialized
      ensures r.Ok? && !old(initialized) ==>
        && config == DeriveConfig(old(config), OwnProperties(args[0]), blockSize).value
        && process != null && fresh(process) && fresh(process.sendQueue)
        && process.sendQueue.Contents() == multiset{}
        && wrapper.patches == old(wrapper.patches)
        && (old(wrapper.engineInited) ==> wrapper.log == old(wrapper.log) && wrapper.engineInited)
        && (!old(wrapper.engineInited) ==>
              wrapper.log == old(wrapper.log) + [InitEngine(config.numInputChannels, config.numOutputChannels, config.sampleRate, false)]
                             + (if engineStatus != 0 then [ComputeAudio(true)] else []))
    {
      if !InitArgsValid(args) {
        return Err("Invalid Arguments");
      }
      if initialized {
        return Ok(initialized);
      }
      var derived := DeriveConfig(config, OwnProperties(args[0]), blockSize);
      if derived.None? {
        return Err("A Number was expected");
      }
      config := derived.value;
      var pdInitialized := wrapper.Init(config, engineStatus);
      process := new BackgroundProcess(config, msgQueue, wrapper, receiver);
      initialized := true;
      return Ok(initialized);
    }

    /** openPatch(filename, path): the engine opens the patch (answering `pdPatch`); its description comes back as an object. */
    method OpenPatch(filename: JsValue, path: JsValue, pdPatch: Patch) returns (r: Result<JsValue>)
      requires Valid()
      modifies wrapper
      ensures Valid()
      ensures r.Ok? <==> initialized && filename.Str? && path.Str?
      ensures r.Err? ==> unchanged(wrapper)
      ensures r.Ok? ==>
        && r.value == PatchObject(CreatePatchInfos(pdPatch))
        && wrapper.log == old(wrapper.log) + [OpenPatchCall(filename.s, path.s)]
        && (pdPatch.isValid && pdPatch.dollarZero !in old(wrapper.patches) ==>
              wrapper.patches == old(wrapper.patches)[pdPatch.dollarZero := pdPatch])
        && (!(pdPatch.isValid && pdPatch.dollarZero !in old(wrapper.patches)) ==> wrapper.patches == old(wrapper.patches))
        && wrapper.engineInited == old(wrapper.engineInited)
    {
      if !initialized {
        return Err("Can't openPatch before init");
      }
      if !filename.Str? || !path.Str? {
        return Err("Invalid Arguments: pd.openPatch(filename, path)");
      }
      var infos := wrapper.OpenPatch(filename.s, path.s, pdPatch);
      return Ok(PatchObject(infos));
    }

    /**
     * closePatch(patch): the object must carry `$0`, `filename`, `path` and
     * `isValid`; the `$0` it names is closed (the engine leaves that patch as
     * `closed`) and the object comes back with only `$0` and `isValid`
     * updated from the close's description.
     */
    method ClosePatch(patch: JsValue, closed: Patch) returns (r: Result<JsValue>)
      requires Valid()
      modifies wrapper
      ensures Valid()
      ensures r.Ok? <==> initialized && HasPatchKeys(patch) && patch.fields[DollarZeroKey].Number?
      ensures r.Err? ==> unchanged(wrapper)
      ensures r.Ok? ==>
        var d := ToInt32(patch.fields[DollarZeroKey].n);
        var registered := d != 0 && d in old(wrapper.patches);
        && r.value == Object(ClosedPatchFields(patch.fields, if registered then CreatePatchInfos(closed) else DefaultPatchInfos))
        && wrapper.engineInited == old(wrapper.engineInited)
        && (registered ==>
              && wrapper.patches == old(wrapper.patches) - {d}
              && wrapper.log == old(wrapper.log) + [ClosePatchCall(old(wrapper.patches)[d])])
        && (!registered ==> wrapper.patches == old(wrapper.patches) && wrapper.log == old(wrapper.log))
    {
      if !initialized {
        return Err("Can't closePatch before init");
      }
      if !patch.Object? || !HasPatchKeys(patch) {
        return Err("Invalid Arguments: pd.closePatch(patch)");
      }
      var dollarZero := Int32Value(patch.fields[DollarZeroKey]);
      if dollarZero.None? {
        return Err("A number was expected");
      }
      var infos := wrapper.ClosePatch(dollarZero.value, closed);
      return Ok(Object(ClosedPatchFields(patch.fields, infos)));
    }

    /**
     * send(channel, value, time): schedules exactly one message, classified
     * from `value`, due at `time` (0 when it is not a number).
     */
    method Send(channel: JsValue, value: JsValue, time: JsValue) returns (r: Result<()>)
      requires Valid()
      modifies if process != null then {process.sendQueue} else {}
      ensures Valid()
      ensures r.Ok? <==> initialized && channel.Str?
      ensures r.Err? && process != null ==> process.sendQueue.Contents() == old(process.sendQueue.Contents())
      ensures r.Ok? ==>
        process.sendQueue.Contents() == old(process.sendQueue.Contents()) + multiset{SendMessageFor(channel.s, value, time)}
    {
      if !initialized {
        return Err("Can't send before init");
      }
      if !channel.Str? {
        return Err("Invalid Arguments: pd.send(channel, value[, scheduledTime])");
      }
      var t := 0.0;
      if time.Number? {
        t := time.n;
      }
      var payload: Payload;
      if value.Str? {
        payload := Symbol(value.s);
      } else if value.Number? {
        payload := Float(value.n);
      } else if value.Array? && |value.elems| > 0 {
        var list := CollectAtoms(value.elems);
        payload := List(list);
      } else {
        payload := Bang;
      }
      process.AddScheduledMessage(ScheduledMsg(PdMsg(channel.s, payload), t));
      return Ok(());
    }

    /**
     * writeArray(name, data, writeLen, offset): hands the samples to the
     * engine (which answers `engineResult`) with the length and offset the
     * documented argument handling gives.
     */
    method WriteArray(name: JsValue, data: seq<real>, lenArg: JsValue, offsetArg: JsValue, engineResult: bool)
      returns (r: Result<bool>)
      requires Valid()
      modifies wrapper
      ensures Valid()
      ensures r.Ok? <==> initialized && name.Str?
      ensures r.Err? ==> unchanged(wrapper)
      ensures r.Ok? ==>
        var (writeLen, offset) := WriteArrayArgs(|data|, lenArg, offsetArg);
        && r.value == engineResult
        && wrapper.log == old(wrapper.log) + [WriteArrayCall(name.s, data, writeLen, offset)]
        && wrapper.engineInited == old(wrapper.engineInited) && wrapper.patches == old(wrapper.patches)
    {
      if !initialized {
        return Err("Can't writeArray before init");
      }
      if !name.Str? {
        return Err("Invalid Arguments: pd.writeArray(name, data, len=data.length, offset=0)");
      }
      var args := WriteArrayArgs(|data|, lenArg, offsetArg);
      var ok := wrapper.WriteArray(name.s, data, args.0, args.1, engineResult);
      return Ok(ok);
    }

    /**
     * readArray(name, buf, readLen, offset): asks the engine for the samples
     * (it answers `engineResult` and leaves its vector as `engineDest`) and
     * copies them back into `buf` within its bounds.
     */
    method ReadArray(name: JsValue, buf: array<real>, lenArg: JsValue, offsetArg: JsValue,
                     engineResult: bool, engineDest: seq<real>) returns (r: Result<bool>)
      requires Valid()
      modifies wrapper, buf
      ensures Valid()
      ensures r.Ok? <==> initialized && name.Str?
      ensures r.Err? ==> unchanged(wrapper) && unchanged(buf)
      ensures r.Ok? ==>
        var readLen := if lenArg.Number? then ToInt32(lenArg.n) else buf.Length;
        var offset := if offsetArg.Number? then ToInt32(offsetArg.n) else 0;
        && r.value == engineResult
        && wrapper.log == old(wrapper.log) + [ReadArrayCall(name.s, buf.Length, readLen, offset)]
        && wrapper.engineInited == old(wrapper.engineInited) && wrapper.patches == old(wrapper.patches)
        && forall i | 0 <= i < buf.Length ::
             buf[i] == (if CopiedBack(i, offset, readLen, buf.Length, |engineDest|) then engineDest[i] else old(buf[i]))
    {
      if !initialized {
        return Err("Can't readArray before init");
      }
      if !name.Str? {
        return Err("Invalid Arguments: pd.readArray(name, len=1, offset=0)");
      }
      var readLen := buf.Length;
      var offset := 0;
      if lenArg.Number? {
        readLen := ToInt32(lenArg.n);
      }
      if offsetArg.Number? {
        offset := ToInt32(offsetArg.n);
      }
      var ok, dest := wrapper.ReadArray(name.s, buf[..], readLen, offset, engineResult, engineDest);
      CopyBack(buf, dest, offset, readLen);
      return Ok(ok);
    }
  }
}
