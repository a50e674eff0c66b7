/**
 * The message and configuration records shared by the native layer:
 * the four-kind Pd message, the time-stamped outbound message and its
 * ordering, the patch description handed back to the host, and the
 * audio configuration.
 */
module Types {

  type Channel = string

  /** One element of a Pd list: a float or a symbol. */
  datatype Atom = FloatAtom(f: real) | SymbolAtom(s: string)

  type PdList = seq<Atom>

  /** PD_MSG_TYPES */
  datatype MsgType = BangMsg | FloatMsg | SymbolMsg | ListMsg

  /** The payload of a message; each case carries exactly the data of its kind. */
  datatype Payload = Bang | Float(num: real) | Symbol(symbol: string) | List(list: PdList)

  /** pd_msg_t: a channel and a payload. */
  datatype PdMsg = PdMsg(channel: Channel, payload: Payload) {

    /** The `type` tag of the message. */
    function Type(): MsgType {
      match payload
      case Bang => BangMsg
      case Float(_) => FloatMsg
      case Symbol(_) => SymbolMsg
      case List(_) => ListMsg
    }

    /** The `symbol` field, which defaults to the empty string. */
    function SymbolField(): string {
      if payload.Symbol? then payload.symbol else ""
    }

    /** The `list` field, which defaults to the empty list. */
    function ListField(): PdList {
      if payload.List? then payload.list else []
    }
  }

  // The four pd_msg_t constructors: the argument types select the tag.

  function BangMessage(c: Channel): (m: PdMsg)
    ensures m.Type() == BangMsg && m.channel == c
    ensures m.SymbolField() == "" && m.ListField() == []
  {
    PdMsg(c, Bang)
  }

  function FloatMessage(c: Channel, n: real): (m: PdMsg)
    ensures m.Type() == FloatMsg && m.channel == c && m.payload.num == n
    ensures m.SymbolField() == "" && m.ListField() == []
  {
    PdMsg(c, Float(n))
  }

  function SymbolMessage(c: Channel, s: string): (m: PdMsg)
    ensures m.Type() == SymbolMsg && m.channel == c && m.SymbolField() == s
    ensures m.ListField() == []
  {
    PdMsg(c, Symbol(s))
  }

  function ListMessage(c: Channel, l: PdList): (m: PdMsg)
    ensures m.Type() == ListMsg && m.channel == c && m.ListField() == l
    ensures m.SymbolField() == ""
  {
    PdMsg(c, List(l))
  }

  /** Every message is built by exactly the constructor its tag names. */
  lemma MessageIsItsConstructor(m: PdMsg)
    ensures m.Type() == BangMsg <==> m == BangMessage(m.channel)
    ensures m.Type() == FloatMsg <==> m.payload.Float? && m == FloatMessage(m.channel, m.payload.num)
    ensures m.Type() == SymbolMsg <==> m == SymbolMessage(m.channel, m.SymbolField())
    ensures m.Type() == ListMsg <==> m == ListMessage(m.channel, m.ListField())
  {
  }

  /**
   * pd_scheduled_msg_t: a message and the audio time at which it is due.
   * The scheduled constructors are the base constructors plus `time`, so the
   * tag and payload of `ScheduledMsg(SymbolMessage(c, s), t)` are those of
   * `SymbolMessage(c, s)` by construction.
   */
  datatype ScheduledMsg = ScheduledMsg(msg: PdMsg, time: real)

  /** compare_msg_time_t: the "less" of the priority queue, so the top has the smallest time. */
  predicate CompareMsgTime(a: ScheduledMsg, b: ScheduledMsg) {
    a.time > b.time
  }

  /** compare_msg_time_t is a strict weak order, as std::priority_queue requires of its comparator. */
  lemma CompareMsgTimeIsStrictWeakOrder(a: ScheduledMsg, b: ScheduledMsg, c: ScheduledMsg)
    ensures !CompareMsgTime(a, a)
    ensures CompareMsgTime(a, b) ==> !CompareMsgTime(b, a)
    ensures CompareMsgTime(a, b) && CompareMsgTime(b, c) ==> CompareMsgTime(a, c)
    ensures !CompareMsgTime(a, b) && !CompareMsgTime(b, a) && !CompareMsgTime(b, c) && !CompareMsgTime(c, b)
            ==> !CompareMsgTime(a, c) && !CompareMsgTime(c, a)
  {
  }

  /**
   * An element is a top of a priority queue ordered by compare_msg_time_t
   * (no element ranks above it) exactly when it has the minimum time.
   */
  lemma TopHasMinimumTime(elems: multiset<ScheduledMsg>, top: ScheduledMsg)
    requires top in elems
    ensures (forall y | y in elems :: !CompareMsgTime(top, y)) <==> (forall y | y in elems :: top.time <= y.time)
  {
  }

  /** patch_infos_t */
  datatype PatchInfos = PatchInfos(isValid: bool, filename: string, path: string, dollarZero: int)

  /** A default-constructed patch_infos_t. */
  const DefaultPatchInfos: PatchInfos := PatchInfos(false, "", "", 0)

  /** audio_config_t */
  datatype AudioConfig = AudioConfig(
    numInputChannels: int,
    numOutputChannels: int,
    sampleRate: int,
    blockSize: int,
    ticks: int,
    framesPerBuffer: int,   // blockSize * ticks
    bufferDuration: real)   // framesPerBuffer / sampleRate, in seconds
}
