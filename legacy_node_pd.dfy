/**
 * NodePd (legacy target). Unlike the live object it checks no initialised
 * flag before a call, reads each option only when it is a number, computes
 * the look-ahead with integer division, reports whether both the engine and
 * the audio stream came up, and sends to the engine at once instead of
 * scheduling.
 */
module LegacyNodePds {
  import opened Wrappers
  import opened Types
  import opened JsValues
  import opened LockedQueues
  import opened ScheduleQueues
  import opened PdWrappers
  import opened LegacyReceivers
  import opened BackgroundProcesses
  import opened LegacyBackgroundProcesses
  import opened HostValues
  import opened NodePds

  const LegacyDefaultSampleRate: int := 44100

  /** The configuration of a fresh legacy instance (block size and durations set by init, 0 here). */
  const LegacyDefaultConfig: AudioConfig :=
    AudioConfig(DefaultNumInputChannels, DefaultNumOutputChannels, LegacyDefaultSampleRate, 0, DefaultNumTicks, 0, 0.0)

  /** C++ `int / int`: the quotient truncated toward zero. */
  function TruncDiv(a: int, b: int): (q: int)
    requires b != 0
    ensures a >= 0 && b > 0 ==> q == a / b
    ensures a < 0 && b > 0 ==> q == -((-a) / b)
  {
    var n := (if a >= 0 then a else -a) / (if b >= 0 then b else -b);
    if (a < 0) != (b < 0) then -n else n
  }

  lemma SmallQuotient(a: int, b: int)
    requires 0 <= a < b
    ensures a / b == 0
  {
  }

  /**
   * The legacy look-ahead as the source computes it: `blockSize * ticks /
   * sampleRate` in integer arithmetic, then widened to a double (0 for a zero
   * rate).
   */
  function LegacyBufferDuration(blockSize: int, ticks: int, sampleRate: int): (d: real)
    ensures sampleRate > 0 && blockSize * ticks >= 0 ==> d == ((blockSize * ticks) / sampleRate) as real
  {
    if sampleRate == 0 then 0.0 else TruncDiv(blockSize * ticks, sampleRate) as real
  }

  /**
   * With the default rate and one 64-frame block the legacy look-ahead is 0,
   * while the live computation gives one buffer's duration.
   */
  lemma LegacyLookAheadIsZero()
    ensures LegacyBufferDuration(64, 1, LegacyDefaultSampleRate) == 0.0
    ensures BufferDuration(64, 1, LegacyDefaultSampleRate) == 64.0 / 44100.0
  {
  }

  /** Whenever a buffer is shorter than a second the legacy look-ahead is 0, never a buffer's duration. */
  lemma LegacyLookAheadBelowOneSecond(blockSize: int, ticks: int, sampleRate: int)
    requires 0 < blockSize * ticks < sampleRate
    ensures LegacyBufferDuration(blockSize, ticks, sampleRate) == 0.0
    ensures BufferDuration(blockSize, ticks, sampleRate) > 0.0
  {
    SmallQuotient(blockSize * ticks, sampleRate);
    var d := BufferDuration(blockSize, ticks, sampleRate);
    assert d * sampleRate as real == (blockSize * ticks) as real;
  }

  /** An option of legacy init: taken (through ToInt32) only when it is a number, ignored otherwise. */
  function LegacyOption(fields: map<string, JsValue>, key: string, current: int): (v: int)
    ensures key in fields && fields[key].Number? ==> v == ToInt32(fields[key].n)
    ensures !(key in fields && fields[key].Number?) ==> v == current
  {
    if key in fields && fields[key].Number? then ToInt32(fields[key].n) else current
  }

  /**
   * The configuration legacy init derives: options are read only from an
   * object and only when they are numbers; a buffer is `blockSize * ticks`
   * frames long, and its duration is the integer quotient by the rate.
   */
  function LegacyDeriveConfig(current: AudioConfig, options: JsValue, blockSize: int): (c: AudioConfig)
    ensures c.blockSize == blockSize && c.framesPerBuffer == blockSize * c.ticks
    ensures c.bufferDuration == LegacyBufferDuration(blockSize, c.ticks, c.sampleRate)
    ensures !options.Object? ==>
      c.numInputChannels == current.numInputChannels && c.numOutputChannels == current.numOutputChannels &&
      c.sampleRate == current.sampleRate && c.ticks == current.ticks
  {
    var fields := if options.Object? then options.fields else map[];
    var numIn := LegacyOption(fields, InputChannelsKey, current.numInputChannels);
    var numOut := LegacyOption(fields, OutputChannelsKey, current.numOutputChannels);
    var rate := LegacyOption(fields, SampleRateKey, current.sampleRate);
    var ticks := LegacyOption(fields, TicksKey, current.ticks);
    AudioConfig(numIn, numOut, rate, blockSize, ticks, blockSize * ticks, LegacyBufferDuration(blockSize, ticks, rate))
  }

  /**
   * An instance initialised without options on a 64-frame engine looks no
   * further than the current time: an iteration forwards only the messages
   * already due.
   */
  lemma LegacyDefaultHorizonIsNow(options: JsValue, currentTime: real)
    requires !options.Object?
    ensures Horizon(currentTime, LegacyDeriveConfig(LegacyDefaultConfig, options, 64)) == currentTime
  {
    LegacyLookAheadIsZero();
  }

  /** The two targets derive the same channels, rate and ticks from options that are all numbers. */
  lemma LegacyConfigAgreesOnNumbers(current: AudioConfig, options: map<string, JsValue>, blockSize: int)
    requires OptionsAreNumbers(options)
    ensures var live := DeriveConfig(current, options, blockSize).value;
      var legacy := LegacyDeriveConfig(current, Object(options), blockSize);
      && live.numInputChannels == legacy.numInputChannels && live.numOutputChannels == legacy.numOutputChannels
      && live.sampleRate == legacy.sampleRate && live.ticks == legacy.ticks
      && live.framesPerBuffer == legacy.framesPerBuffer
  {
  }

  /**
   * The message legacy `send` hands to the engine at once: a string is a
   * symbol, a number a float, a non-empty array a list of its numbers and
   * strings, any other value a bang; an empty array sends nothing.
   */
  function LegacySendMessage(channel: Channel, value: JsValue): (m: Option<PdMsg>)
    ensures m.None? <==> value == Array([])
    ensures m.Some? ==> m.value.channel == channel
    ensures value.Str? ==> m == Some(SymbolMessage(channel, value.s))
    ensures value.Number? ==> m == Some(FloatMessage(channel, value.n))
    ensures value.Array? && value.elems != [] ==> m == Some(ListMessage(channel, ListAtoms(value.elems)))
  {
    match value
    case Str(s) => Some(PdMsg(channel, Symbol(s)))
    case Number(n) => Some(PdMsg(channel, Float(n)))
    case Array(elems) => if |elems| > 0 then Some(PdMsg(channel, List(ListAtoms(elems)))) else None
    case _ => Some(PdMsg(channel, Bang))
  }

  /** Both targets classify a value alike; only the empty array differs (a bang there, nothing here). */
  lemma LegacySendAgreesWithLive(channel: Channel, value: JsValue)
    ensures value != Array([]) ==> LegacySendMessage(channel, value) == Some(PdMsg(channel, Classify(value)))
    ensures value == Array([]) ==> LegacySendMessage(channel, value).None? && Classify(value) == Bang
  {
  }

  /**
   * `NumberValue()` of the `$0` property followed by the conversion to `int`:
   * numbers are truncated, booleans and null convert as ECMAScript ToNumber
   * has it; None for the values whose conversion is not modelled.
   */
  function LegacyDollarZero(v: JsValue): (d: Option<int>)
    ensures v.Number? ==> d == Some(Truncate(v.n))
    ensures v.Null? ==> d == Some(0)
    ensures v.Bool? ==> d == Some(if v.b then 1 else 0)
  {
    match v
    case Number(n) => Some(Truncate(n))
    case Bool(b) => Some(if b then 1 else 0)
    case Null => Some(0)
    case _ => None
  }

  class LegacyNodePd {
    /** initialized_ */
    var initialized: bool
    /** audioConfig_ */
    var config: AudioConfig
    /** msgQueue_: shared by the receiver and the background process. */
    const msgQueue: LockedQueue<PdMsg>
    const wrapper: PdWrapper
    const receiver: LegacyPdReceiver
    /** backgroundProcess_, created by each init that runs. */
    var process: LegacyBackgroundProcess?

    ghost predicate Valid()
      reads this, wrapper, process, (if process != null then {process.sendQueue} else {})
    {
      && wrapper.Valid()
      && receiver.queue == msgQueue
      && (initialized ==> process != null)
      && (process != null ==>
            && process.Valid()
            && process.pdWrapper == wrapper && process.receiveQueue == msgQueue
            && process.receiver == receiver && process.config == config)
    }

    constructor ()
      ensures Valid() && !initialized && process == null && config == LegacyDefaultConfig
      ensures fresh(msgQueue) && fresh(wrapper) && fresh(receiver)
      ensures msgQueue.items == [] && wrapper.log == [] && !wrapper.engineInited && wrapper.patches == map[]
    {
      initialized := false;
      config := LegacyDefaultConfig;
      var queue := new LockedQueue<PdMsg>();
      msgQueue := queue;
      wrapper := new PdWrapper();
      receiver := new LegacyPdReceiver(queue);
      process := null;
    }

    /**
     * init(options): while not initialized (a failed init included), derives
     * the configuration, initialises the engine (answering `engineStatus`)
     * and the audio stream (answering `paInitialized`), starts a background
     * process, and reports whether both came up. Once initialized it answers
     * null (None) and changes nothing.
     */
    method Init(options: JsValue, blockSize: int, engineStatus: int, paInitialized: bool) returns (r: Option<bool>)
      requires Valid()
      modifies this, wrapper
      ensures Valid()
      ensures old(initialized) ==> r.None? && unchanged(this) && unchanged(wrapper)
      ensures !old(initialized) ==>
        && r == Some(initialized)
        && config == LegacyDeriveConfig(old(config), options, blockSize)
        && initialized == (!old(wrapper.engineInited) && engineStatus != 0 && paInitialized)
        && process != null && fresh(process) && fresh(process.sendQueue)
        && process.sendQueue.Contents() == multiset{}
        && wrapper.patches == old(wrapper.patches)
        && (old(wrapper.engineInited) ==> wrapper.log == old(wrapper.log))
        && (!old(wrapper.engineInited) ==>
              wrapper.log == old(wrapper.log) + [InitEngine(config.numInputChannels, config.numOutputChannels, config.sampleRate, false)]
                             + (if engineStatus != 0 then [ComputeAudio(true)] else []))
    {
      if initialized {
        return None;
      }
      config := LegacyDeriveConfig(config, options, blockSize);
      var pdInitialized := wrapper.Init(config, engineStatus);
      process := new LegacyBackgroundProcess(config, msgQueue, wrapper, receiver);
      initialized := pdInitialized && paInitialized;
      return Some(initialized);
    }

    /**
     * closePatch(patch): an own `$0`, `isValid`, `filename` and `path` are
     * required; the `$0` named is closed and only `isValid` and `$0` are
     * updated on the object. The call itself answers `undefined`: the
     * `Ok` value is the caller's object as the update leaves it.
     */
    method ClosePatch(patch: JsValue, closed: Patch) returns (r: Result<JsValue>)
      requires Valid()
      modifies wrapper
      ensures Valid()
      ensures !IsObject(patch) ==> r == Err("patch is not an object")
      ensures IsObject(patch) && !HasPatchKeys(patch) ==> r == Err("Invalid patch")
      ensures r.Ok? <==> HasPatchKeys(patch) && LegacyDollarZero(patch.fields[DollarZeroKey]).Some?
      ensures r.Err? ==> unchanged(wrapper)
      ensures r.Ok? ==>
        var d := LegacyDollarZero(patch.fields[DollarZeroKey]).value;
        var registered := d != 0 && d in old(wrapper.patches);
        && r.value == Object(ClosedPatchFields(patch.fields, if registered then CreatePatchInfos(closed) else DefaultPatchInfos))
        && wrapper.engineInited == old(wrapper.engineInited)
        && (registered ==>
              && wrapper.patches == old(wrapper.patches) - {d}
              && wrapper.log == old(wrapper.log) + [ClosePatchCall(old(wrapper.patches)[d])])
        && (!registered ==> wrapper.patches == old(wrapper.patches) && wrapper.log == old(wrapper.log))
    {
      if !IsObject(patch) {
        return Err("patch is not an object");
      }
      if !HasPatchKeys(patch) {
        return Err("Invalid patch");
      }
      var dollarZero := LegacyDollarZero(patch.fields[DollarZeroKey]);
      if dollarZero.None? {
        return Err("$0 does not convert to a number");
      }
      var infos := wrapper.ClosePatch(dollarZero.value, closed);
      return Ok(Object(ClosedPatchFields(patch.fields, infos)));
    }

    /** send(channel, value): at most one engine send, made at once, with no initialised check. */
    method Send(channel: Channel, value: JsValue)
      modifies wrapper
      ensures wrapper.engineInited == old(wrapper.engineInited) && wrapper.patches == old(wrapper.patches)
      ensures wrapper.log == old(wrapper.log) +
        (match LegacySendMessage(channel, value) case Some(m) => [SendCall(m)] case None => [])
    {
      if value.Str? {
        wrapper.SendDirect(SymbolMessage(channel, value.s));
      } else if value.Number? {
        wrapper.SendDirect(FloatMessage(channel, value.n));
      } else if value.Array? {
        if |value.elems| > 0 {
          var list := CollectAtoms(value.elems);
          wrapper.SendDirect(ListMessage(channel, list));
        }
      } else {
        wrapper.SendDirect(BangMessage(channel));
      }
    }
  }
}
