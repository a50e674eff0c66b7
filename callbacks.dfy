/**
 * The host side of the inbound path: how the progress callback of the
 * background process turns one queued message into the arguments of one call
 * of the host's message callback. The channel always comes first as a
 * string; a bang adds nothing, a float its number, a symbol its string and a
 * list an array holding, element by element, the list's floats as numbers and
 * its symbols as strings.
 */
module Callbacks {
  import opened Wrappers
  import opened Types
  import opened JsValues

  /** One list element as a host value. */
  function AtomValue(a: Atom): (v: JsValue)
    ensures a.FloatAtom? <==> v.Number?
    ensures a.SymbolAtom? <==> v.Str?
  {
    match a
    case FloatAtom(f) => Number(f)
    case SymbolAtom(s) => Str(s)
  }

  /** The elements of the host array built for a list. */
  function AtomValues(l: PdList): (vs: seq<JsValue>)
    ensures |vs| == |l|
    ensures forall i | 0 <= i < |l| :: vs[i] == AtomValue(l[i])
  {
    seq(|l|, i requires 0 <= i < |l| => AtomValue(l[i]))
  }

  /** The arguments of the message callback for one queued message. */
  function CallbackArgs(m: PdMsg): (args: seq<JsValue>)
    ensures |args| == (if m.Type() == BangMsg then 1 else 2)
    ensures args[0] == Str(m.channel)
  {
    match m.payload
    case Bang => [Str(m.channel)]
    case Float(n) => [Str(m.channel), Number(n)]
    case Symbol(s) => [Str(m.channel), Str(s)]
    case List(l) => [Str(m.channel), Array(AtomValues(l))]
  }

  /** One callback per message, in order. */
  function CallbackCalls(ms: seq<PdMsg>): (calls: seq<seq<JsValue>>)
    ensures |calls| == |ms|
    ensures forall i | 0 <= i < |ms| :: calls[i] == CallbackArgs(ms[i])
  {
    seq(|ms|, i requires 0 <= i < |ms| => CallbackArgs(ms[i]))
  }

  /** One more message adds its argument list at the end. */
  lemma CallbackCallsSnoc(ms: seq<PdMsg>, m: PdMsg)
    ensures CallbackCalls(ms + [m]) == CallbackCalls(ms) + [CallbackArgs(m)]
  {
    assert forall i | 0 <= i < |ms| :: (ms + [m])[i] == ms[i];
  }

  /** The argument lists of two runs of messages, one after the other. */
  lemma CallbackCallsAppend(ms: seq<PdMsg>, ns: seq<PdMsg>)
    ensures CallbackCalls(ms + ns) == CallbackCalls(ms) + CallbackCalls(ns)
  {
    assert forall i | 0 <= i < |ms| :: (ms + ns)[i] == ms[i];
    assert forall i | |ms| <= i < |ms| + |ns| :: (ms + ns)[i] == ns[i - |ms|];
  }

  // Reading a message back from callback arguments: the reference that shows
  // the encoding loses nothing.

  function ParseAtom(v: JsValue): Option<Atom> {
    match v
    case Number(n) => Some(FloatAtom(n))
    case Str(s) => Some(SymbolAtom(s))
    case _ => None
  }

  function ParseAtoms(vs: seq<JsValue>): Option<PdList>
    decreases |vs|
  {
    if vs == [] then Some([])
    else
      match (ParseAtom(vs[0]), ParseAtoms(vs[1..]))
      case (Some(a), Some(rest)) => Some([a] + rest)
      case _ => None
  }

  function ParseArgs(args: seq<JsValue>): Option<PdMsg> {
    if |args| == 1 && args[0].Str? then Some(PdMsg(args[0].s, Bang))
    else if |args| == 2 && args[0].Str? then
      match args[1]
      case Number(n) => Some(PdMsg(args[0].s, Float(n)))
      case Str(s) => Some(PdMsg(args[0].s, Symbol(s)))
      case Array(vs) =>
        (match ParseAtoms(vs)
         case Some(l) => Some(PdMsg(args[0].s, List(l)))
         case None => None)
      case _ => None
    else None
  }

  lemma {:induction false} ParseAtomValues(l: PdList)
    ensures ParseAtoms(AtomValues(l)) == Some(l)
    decreases |l|
  {
    if l != [] {
      assert AtomValues(l)[1..] == AtomValues(l[1..]);
      ParseAtomValues(l[1..]);
      assert ParseAtom(AtomValue(l[0])) == Some(l[0]);
      assert [l[0]] + l[1..] == l;
    }
  }

  /**
   * The callback arguments determine the message: channel, kind and payload
   * can all be read back, so two different messages never give the host the
   * same call.
   */
  lemma ParseCallbackArgs(m: PdMsg)
    ensures ParseArgs(CallbackArgs(m)) == Some(m)
  {
    if m.payload.List? {
      ParseAtomValues(m.payload.list);
    }
  }

  lemma CallbackArgsInjective(m1: PdMsg, m2: PdMsg)
    ensures CallbackArgs(m1) == CallbackArgs(m2) ==> m1 == m2
  {
    ParseCallbackArgs(m1);
    ParseCallbackArgs(m2);
  }

  /**
   * The element loop of the LIST_MSG case: a fresh host array of the list's
   * length, filled element by element.
   */
  method ListToArray(l: PdList) returns (vs: seq<JsValue>)
    ensures vs == AtomValues(l)
  {
    vs := [];
    var i := 0;
    while i < |l|
      invariant 0 <= i <= |l|
      invariant vs == AtomValues(l[..i])
    {
      if l[i].FloatAtom? {
        vs := vs + [Number(l[i].f)];
      } else {
        vs := vs + [Str(l[i].s)];
      }
      i := i + 1;
    }
    assert l[..i] == l;
  }

  /** The switch on the message tag: the argument list of one callback. */
  method MessageToArgs(m: PdMsg) returns (args: seq<JsValue>)
    ensures args == CallbackArgs(m)
  {
    var channel := Str(m.channel);
    match m.payload {
      case Bang => args := [channel];
      case Float(n) => args := [channel, Number(n)];
      case Symbol(s) => args := [channel, Str(s)];
      case List(l) =>
        var list := ListToArray(l);
        args := [channel, Array(list)];
    }
  }
}
