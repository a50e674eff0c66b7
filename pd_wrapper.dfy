/**
 * PdWrapper: the native layer's handle on the libpd engine. It guards engine
 * initialisation, keeps the registry of open patches keyed by their `$0`, and
 * turns a scheduled message into the one engine send its tag calls for.
 *
 * The engine itself is not modelled: every call into it is appended to `log`,
 * and what it answers (the status of its init, the patch it opened, the patch
 * as its close leaves it) is a parameter.
 */
module PdWrappers {
  import opened Wrappers
  import opened Types

  /** pd::Patch as the engine reports it. */
  datatype Patch = Patch(isValid: bool, filename: string, path: string, dollarZero: int)

  /** One call into the engine. */
  datatype EngineCall =
    | InitEngine(numInputChannels: int, numOutputChannels: int, sampleRate: int, queued: bool)
    | ComputeAudio(on: bool)
    | OpenPatchCall(filename: string, path: string)
    | ClosePatchCall(patch: Patch)
    | SendBang(channel: Channel)
    | SendFloat(channel: Channel, num: real)
    | SendSymbol(channel: Channel, symbol: string)
    | SendList(channel: Channel, list: PdList)
    | WriteArrayCall(name: string, source: seq<real>, writeLen: int, offset: int)
    | ReadArrayCall(name: string, destLength: nat, readLen: int, offset: int)

  predicate IsSend(c: EngineCall) {
    c.SendBang? || c.SendFloat? || c.SendSymbol? || c.SendList?
  }

  /** The message an engine send carries; None for calls that are not sends. */
  function SentMessage(c: EngineCall): Option<PdMsg> {
    match c
    case SendBang(ch) => Some(PdMsg(ch, Bang))
    case SendFloat(ch, n) => Some(PdMsg(ch, Float(n)))
    case SendSymbol(ch, s) => Some(PdMsg(ch, Symbol(s)))
    case SendList(ch, l) => Some(PdMsg(ch, List(l)))
    case _ => None
  }

  /**
   * The switch of sendMessage: the engine send matching the message's tag. The
   * call carries the channel and the whole payload, so the message can be read
   * back from it.
   */
  function SendCall(m: PdMsg): (c: EngineCall)
    ensures IsSend(c) && c.channel == m.channel
    ensures SentMessage(c) == Some(m)
    ensures m.Type() == BangMsg <==> c.SendBang?
    ensures m.Type() == FloatMsg <==> c.SendFloat?
    ensures m.Type() == SymbolMsg <==> c.SendSymbol?
    ensures m.Type() == ListMsg <==> c.SendList?
  {
    match m.payload
    case Bang => SendBang(m.channel)
    case Float(n) => SendFloat(m.channel, n)
    case Symbol(s) => SendSymbol(m.channel, s)
    case List(l) => SendList(m.channel, l)
  }

  /** The engine sends for a sequence of scheduled messages, in order. */
  function SendCalls(ms: seq<ScheduledMsg>): (cs: seq<EngineCall>)
  {
    seq(|ms|, i requires 0 <= i < |ms| => SendCall(ms[i].msg))
  }

  lemma SendCallsSnoc(ms: seq<ScheduledMsg>, m: ScheduledMsg)
    ensures SendCalls(ms + [m]) == SendCalls(ms) + [SendCall(m.msg)]
  {
  }

  lemma SendCallsAppend(a: seq<ScheduledMsg>, b: seq<ScheduledMsg>)
    ensures SendCalls(a + b) == SendCalls(a) + SendCalls(b)
  {
  }

  /** createPatchInfos_: the host-facing copy of an engine patch. */
  function CreatePatchInfos(p: Patch): (infos: PatchInfos)
    ensures infos.isValid == p.isValid && infos.filename == p.filename
    ensures infos.path == p.path && infos.dollarZero == p.dollarZero
  {
    PatchInfos(p.isValid, p.filename, p.path, p.dollarZero)
  }

  class PdWrapper {
    /** What the engine's isInited() answers. */
    var engineInited: bool
    /** patches_: the open valid patches, keyed by `$0`. */
    var patches: map<int, Patch>
    /** Every call made into the engine, oldest first. */
    var log: seq<EngineCall>

    /** The registry holds valid patches only, each under its own `$0`. */
    ghost predicate Valid()
      reads this
    {
      forall d | d in patches :: patches[d].isValid && patches[d].dollarZero == d
    }

    constructor ()
      ensures Valid()
      ensures !engineInited && patches == map[] && log == []
    {
      engineInited := false;
      patches := map[];
      log := [];
    }

    /**
     * init: refuses (false, no engine call) when the engine is already inited;
     * otherwise initialises it, un-queued, with the configured channels and
     * rate, and on success (a non-zero status) switches audio computation on.
     */
    method Init(config: AudioConfig, engineStatus: int) returns (ok: bool)
      modifies this
      ensures patches == old(patches)
      ensures old(engineInited) ==> !ok && engineInited && log == old(log)
      ensures !old(engineInited) ==>
        var initCall := InitEngine(config.numInputChannels, config.numOutputChannels, config.sampleRate, false);
        && ok == (engineStatus != 0)
        && engineInited == ok
        && log == old(log) + [initCall] + (if ok then [ComputeAudio(true)] else [])
    {
      if engineInited {
        return false;
      }
      log := log + [InitEngine(config.numInputChannels, config.numOutputChannels, config.sampleRate, false)];
      engineInited := engineStatus != 0;
      if engineStatus == 0 {
        return false;
      }
      log := log + [ComputeAudio(true)];
      ok := true;
    }

    /**
     * openPatch: asks the engine to open `filename` in `path` (the engine
     * answers `pdPatch`), registers the patch under its `$0` when it is valid
     * (std::map::insert keeps an entry already under that key), and returns
     * its description.
     */
    method OpenPatch(filename: string, path: string, pdPatch: Patch) returns (infos: PatchInfos)
      requires Valid()
      modifies this
      ensures Valid()
      ensures engineInited == old(engineInited)
      ensures log == old(log) + [OpenPatchCall(filename, path)]
      ensures infos == CreatePatchInfos(pdPatch)
      ensures !pdPatch.isValid ==> patches == old(patches)
      ensures pdPatch.isValid && pdPatch.dollarZero !in old(patches) ==>
        patches == old(patches)[pdPatch.dollarZero := pdPatch]
      ensures pdPatch.isValid && pdPatch.dollarZero in old(patches) ==> patches == old(patches)
      ensures pdPatch.isValid ==> pdPatch.dollarZero in patches
    {
      log := log + [OpenPatchCall(filename, path)];
      if pdPatch.isValid && pdPatch.dollarZero !in patches {
        patches := patches[pdPatch.dollarZero := pdPatch];
      }
      infos := CreatePatchInfos(pdPatch);
    }

    /**
     * closePatch: `$0` 0 or a `$0` that is not registered gives the default
     * description and changes nothing; a registered one is closed once in the
     * engine (which leaves the patch as `closed`), removed, and described.
     */
    method ClosePatch(dollarZero: int, closed: Patch) returns (infos: PatchInfos)
      requires Valid()
      modifies this
      ensures Valid()
      ensures engineInited == old(engineInited)
      ensures dollarZero == 0 || dollarZero !in old(patches) ==>
        infos == DefaultPatchInfos && patches == old(patches) && log == old(log)
      ensures dollarZero != 0 && dollarZero in old(patches) ==>
        && log == old(log) + [ClosePatchCall(old(patches)[dollarZero])]
        && patches == old(patches) - {dollarZero}
        && infos == CreatePatchInfos(closed)
    {
      if dollarZero != 0 {
        if dollarZero in patches {
          var patch := patches[dollarZero];
          log := log + [ClosePatchCall(patch)];
          patches := patches - {dollarZero};
          return CreatePatchInfos(closed);
        }
        return DefaultPatchInfos;
      }
      return DefaultPatchInfos;
    }

    /** sendMessage: exactly one engine send, the one matching the message's tag. */
    method SendMessage(m: ScheduledMsg)
      modifies this
      ensures engineInited == old(engineInited) && patches == old(patches)
      ensures log == old(log) + [SendCall(m.msg)]
    {
      log := log + [SendCall(m.msg)];
    }

    /**
     * The direct sends of the legacy target (sendBang, sendFloat, sendSymbol,
     * and startMessage/addFloat/addSymbol/finishList for a list): one engine
     * send carrying the message.
     */
    method SendDirect(m: PdMsg)
      modifies this
      ensures engineInited == old(engineInited) && patches == old(patches)
      ensures log == old(log) + [SendCall(m)]
    {
      log := log + [SendCall(m)];
    }

    /** writeArray: passes its arguments to the engine, which answers `engineResult`. */
    method WriteArray(name: string, source: seq<real>, writeLen: int, offset: int, engineResult: bool) returns (ok: bool)
      modifies this
      ensures engineInited == old(engineInited) && patches == old(patches)
      ensures log == old(log) + [WriteArrayCall(name, source, writeLen, offset)]
      ensures ok == engineResult
    {
      log := log + [WriteArrayCall(name, source, writeLen, offset)];
      ok := engineResult;
    }

    /**
     * readArray: passes its arguments to the engine, which answers
     * `engineResult` and leaves the destination vector as `engineDest`.
     */
    method ReadArray(name: string, dest: seq<real>, readLen: int, offset: int,
                     engineResult: bool, engineDest: seq<real>) returns (ok: bool, result: seq<real>)
      modifies this
      ensures engineInited == old(engineInited) && patches == old(patches)
      ensures log == old(log) + [ReadArrayCall(name, |dest|, readLen, offset)]
      ensures ok == engineResult && result == engineDest
    {
      log := log + [ReadArrayCall(name, |dest|, readLen, offset)];
      ok := engineResult;
      result := engineDest;
    }
  }
}
