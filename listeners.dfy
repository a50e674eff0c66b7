/**
 * The host-side listener registry of `getInstance()`: a dictionary from a
 * channel to the callbacks subscribed to it, in subscription order. The
 * registry subscribes a channel natively when its first callback arrives and
 * unsubscribes it when its last one leaves, and the message callback it hands
 * to the native layer dispatches each message to the channel's callbacks.
 * A native subscribe or unsubscribe can throw (before `init` it does); what
 * the native layer does is a parameter, and the dictionary keeps what the
 * host code had already stored when the exception arose.
 *
 * Callbacks are compared by identity, so a callback is modelled by a number;
 * calling one is recorded as an `Invocation`. Calls into the native object
 * are recorded in a `NativeCall` trace.
 */
module Listeners {
  import opened Wrappers
  import opened JsValues

  /** A host callback, by identity. */
  type Listener = nat

  /** A call of a callback with the value it receives. */
  datatype Invocation = Invocation(listener: Listener, value: JsValue)

  /** One call into the native object. */
  datatype NativeCall =
    | NativeSubscribe(channel: string)
    | NativeUnsubscribe(channel: string)
    | NativeInitialize(options: JsValue)
    | NativeSetMessageCallback

  /** The channels natively subscribed after a trace of native calls. */
  function Subscribed(calls: seq<NativeCall>): (s: set<string>)
    decreases |calls|
  {
    if calls == [] then {}
    else
      var before := Subscribed(calls[..|calls| - 1]);
      match calls[|calls| - 1]
      case NativeSubscribe(c) => before + {c}
      case NativeUnsubscribe(c) => before - {c}
      case _ => before
  }

  /**
   * No channel is subscribed natively while it already is, nor unsubscribed
   * while it is not: subscriptions and unsubscriptions of a channel alternate.
   */
  predicate Balanced(calls: seq<NativeCall>)
    decreases |calls|
  {
    if calls == [] then true
    else
      var before := calls[..|calls| - 1];
      && Balanced(before)
      && (calls[|calls| - 1].NativeSubscribe? ==> calls[|calls| - 1].channel !in Subscribed(before))
      && (calls[|calls| - 1].NativeUnsubscribe? ==> calls[|calls| - 1].channel in Subscribed(before))
  }

  lemma SubscribedSnoc(calls: seq<NativeCall>, c: NativeCall)
    ensures c.NativeSubscribe? ==> Subscribed(calls + [c]) == Subscribed(calls) + {c.channel}
    ensures c.NativeUnsubscribe? ==> Subscribed(calls + [c]) == Subscribed(calls) - {c.channel}
    ensures !c.NativeSubscribe? && !c.NativeUnsubscribe? ==> Subscribed(calls + [c]) == Subscribed(calls)
    ensures Balanced(calls + [c]) <==>
      Balanced(calls) && (c.NativeSubscribe? ==> c.channel !in Subscribed(calls))
                      && (c.NativeUnsubscribe? ==> c.channel in Subscribed(calls))
  {
    assert (calls + [c])[..|calls|] == calls;
  }

  /**
   * In a balanced trace every channel has been subscribed natively once more
   * than it has been unsubscribed while it is subscribed, and as often
   * otherwise.
   */
  lemma {:induction false} BalancedCounts(calls: seq<NativeCall>, ch: string)
    requires Balanced(calls)
    ensures multiset(calls)[NativeSubscribe(ch)] ==
      multiset(calls)[NativeUnsubscribe(ch)] + (if ch in Subscribed(calls) then 1 else 0)
    decreases |calls|
  {
    if calls != [] {
      var before := calls[..|calls| - 1];
      var last := calls[|calls| - 1];
      assert calls == before + [last];
      SubscribedSnoc(before, last);
      BalancedCounts(before, ch);
      assert multiset(calls) == multiset(before) + multiset{last};
    }
  }

  /** Every list in the dictionary holds at least one callback. */
  predicate NonEmptyLists(m: map<string, seq<Listener>>) {
    forall ch | ch in m :: m[ch] != []
  }

  /** `Array.prototype.indexOf` on callbacks: the first position of `x`, or -1. */
  function IndexOf(s: seq<Listener>, x: Listener): (i: int)
    ensures -1 <= i < |s|
    ensures i == -1 <==> x !in s
    ensures i >= 0 ==> s[i] == x && x !in s[..i]
  {
    if s == [] then -1
    else if s[0] == x then 0
    else
      var j := IndexOf(s[1..], x);
      assert j >= 0 ==> s[..j + 1] == [s[0]] + s[1..][..j];
      if j == -1 then -1 else j + 1
  }

  /** `indexOf` followed by `splice(index, 1)` when found: the first occurrence of `x` removed. */
  function RemoveFirst(s: seq<Listener>, x: Listener): (r: seq<Listener>)
    ensures x !in s ==> r == s
    ensures x in s ==> r == s[..IndexOf(s, x)] + s[IndexOf(s, x) + 1..]
    ensures multiset(r) == multiset(s) - multiset{x}
  {
    var i := IndexOf(s, x);
    if i == -1 then s
    else
      assert s == s[..i] + [s[i]] + s[i + 1..];
      s[..i] + s[i + 1..]
  }

  /** Removing a callback just appended, and found nowhere before, gives the list back. */
  lemma RemoveFirstOfAppended(s: seq<Listener>, x: Listener)
    requires x !in s
    ensures RemoveFirst(s + [x], x) == s
  {
    assert (s + [x])[..|s|] == s;
  }

  /** getInstance.js `subscribe` on the dictionary: the callback appended to its channel's list, created if absent. */
  function RegistrySubscribe(m: map<string, seq<Listener>>, ch: string, cb: Listener): (r: map<string, seq<Listener>>)
    ensures r.Keys == m.Keys + {ch}
    ensures r[ch] == (if ch in m then m[ch] else []) + [cb]
    ensures forall c | c in m && c != ch :: r[c] == m[c]
    ensures NonEmptyLists(m) ==> NonEmptyLists(r)
  {
    if ch in m then m[ch := m[ch] + [cb]] else m[ch := [cb]]
  }

  /**
   * getInstance.js `unsubscribe` on the dictionary: an unknown channel is left
   * alone; otherwise the first occurrence of the callback is removed, and the
   * channel is deleted when no callback was given or its list became empty.
   */
  function RegistryUnsubscribe(m: map<string, seq<Listener>>, ch: string, cb: Option<Listener>): (r: map<string, seq<Listener>>)
    ensures ch !in m ==> r == m
    ensures ch in m && cb.None? ==> r == m - {ch}
    ensures ch in m && cb.Some? ==>
      (RemoveFirst(m[ch], cb.value) == [] ==> r == m - {ch}) &&
      (RemoveFirst(m[ch], cb.value) != [] ==> r == m[ch := RemoveFirst(m[ch], cb.value)])
  {
    if ch !in m then m
    else
      var l := if cb.Some? then RemoveFirst(m[ch], cb.value) else m[ch];
      if cb.None? || l == [] then m - {ch} else m[ch := l]
  }

  /**
   * `dispatch`: every callback of the channel is called with the value, in
   * subscription order; a channel with no list gives no call.
   */
  function Invocations(m: map<string, seq<Listener>>, ch: string, value: JsValue): (r: seq<Invocation>)
    ensures |r| == (if ch in m then |m[ch]| else 0)
    ensures forall i | 0 <= i < |r| :: r[i] == Invocation(m[ch][i], value)
  {
    if ch in m then ListInvocations(m[ch], value) else []
  }

  /** The calls of a list of callbacks with one value. */
  function ListInvocations(l: seq<Listener>, value: JsValue): (r: seq<Invocation>)
    ensures |r| == |l|
    ensures forall i | 0 <= i < |l| :: r[i] == Invocation(l[i], value)
  {
    seq(|l|, i requires 0 <= i < |l| => Invocation(l[i], value))
  }

  /** A callback subscribed last is called last, after every callback already there. */
  lemma DispatchAfterSubscribe(m: map<string, seq<Listener>>, ch: string, cb: Listener, value: JsValue)
    ensures Invocations(RegistrySubscribe(m, ch, cb), ch, value) == Invocations(m, ch, value) + [Invocation(cb, value)]
  {
  }

  /** Subscribing a callback that is not yet on the channel and unsubscribing it restores the dictionary. */
  lemma SubscribeThenUnsubscribe(m: map<string, seq<Listener>>, ch: string, cb: Listener)
    requires NonEmptyLists(m)
    requires ch in m ==> cb !in m[ch]
    ensures RegistryUnsubscribe(RegistrySubscribe(m, ch, cb), ch, Some(cb)) == m
  {
    if ch in m {
      var l := m[ch];
      RemoveFirstOfAppended(l, cb);
      assert RegistrySubscribe(m, ch, cb) == m[ch := l + [cb]];
      assert l != [];
      RestoreUpdated(m, ch, l + [cb]);
    } else {
      RemoveFirstOfAppended([], cb);
      assert RegistrySubscribe(m, ch, cb) == m[ch := [cb]];
      RestoreAdded(m, ch, [cb]);
    }
  }

  lemma RestoreUpdated(m: map<string, seq<Listener>>, k: string, v: seq<Listener>)
    requires k in m
    ensures m[k := v][k := m[k]] == m
  {
  }

  lemma RestoreAdded(m: map<string, seq<Listener>>, k: string, v: seq<Listener>)
    requires k !in m
    ensures m[k := v] - {k} == m
  {
  }

  /** Unsubscribing a callback makes it receive each message once less; the others are called as before. */
  lemma UnsubscribeCallsOnceLess(m: map<string, seq<Listener>>, ch: string, cb: Listener, value: JsValue)
    requires ch in m
    ensures var after := RegistryUnsubscribe(m, ch, Some(cb));
      multiset(Invocations(after, ch, value)) == multiset(Invocations(m, ch, value)) - multiset{Invocation(cb, value)}
  {
    ListInvocationsRemoveFirst(m[ch], cb, value);
  }

  lemma ListInvocationsAppend(a: seq<Listener>, b: seq<Listener>, value: JsValue)
    ensures ListInvocations(a + b, value) == ListInvocations(a, value) + ListInvocations(b, value)
  {
  }

  /** Removing the first occurrence of a callback removes one of its calls. */
  lemma ListInvocationsRemoveFirst(l: seq<Listener>, cb: Listener, value: JsValue)
    ensures multiset(ListInvocations(RemoveFirst(l, cb), value)) == multiset(ListInvocations(l, value)) - multiset{Invocation(cb, value)}
  {
    if cb in l {
      var i := IndexOf(l, cb);
      assert l == l[..i] + [cb] + l[i + 1..];
      ListInvocationsRemoveOne(l[..i], cb, l[i + 1..], value);
    } else {
      assert multiset(ListInvocations(l, value))[Invocation(cb, value)] == 0;
    }
  }

  lemma ListInvocationsRemoveOne(a: seq<Listener>, cb: Listener, b: seq<Listener>, value: JsValue)
    ensures multiset(ListInvocations(a + b, value)) == multiset(ListInvocations(a + [cb] + b, value)) - multiset{Invocation(cb, value)}
  {
    var invA, invB := ListInvocations(a, value), ListInvocations(b, value);
    ListInvocationsAppend(a + [cb], b, value);
    ListInvocationsAppend(a, [cb], value);
    ListInvocationsAppend(a, b, value);
    assert ListInvocations(a + [cb] + b, value) == invA + [Invocation(cb, value)] + invB;
  }

  /** After an unsubscribe without a callback the channel's callbacks are no longer called. */
  lemma UnsubscribeAllSilences(m: map<string, seq<Listener>>, ch: string, value: JsValue)
    ensures Invocations(RegistryUnsubscribe(m, ch, None), ch, value) == []
  {
  }

  /** The `forEach` of `dispatch`: the callbacks of the channel called in order with the value. */
  method DispatchTo(m: map<string, seq<Listener>>, ch: string, value: JsValue) returns (calls: seq<Invocation>)
    ensures calls == Invocations(m, ch, value)
  {
    calls := [];
    if ch in m && |m[ch]| > 0 {
      var listeners := m[ch];
      var i := 0;
      while i < |listeners|
        invariant 0 <= i <= |listeners|
        invariant |calls| == i
        invariant forall j | 0 <= j < i :: calls[j] == Invocation(listeners[j], value)
      {
        calls := calls + [Invocation(listeners[i], value)];
        i := i + 1;
      }
    }
  }

  /**
   * The registry's invariant survives `unsubscribe`: the dictionary becomes
   * RegistryUnsubscribe, and the channel is unsubscribed natively iff it was
   * deleted.
   */
  lemma UnsubscribeKeepsBalance(m: map<string, seq<Listener>>, calls: seq<NativeCall>, ch: string, cb: Option<Listener>)
    requires NonEmptyLists(m) && Balanced(calls) && Subscribed(calls) == m.Keys
    ensures var r := RegistryUnsubscribe(m, ch, cb);
      var calls' := calls + (if ch in m && ch !in r then [NativeUnsubscribe(ch)] else []);
      NonEmptyLists(r) && Balanced(calls') && Subscribed(calls') == r.Keys
  {
    var r := RegistryUnsubscribe(m, ch, cb);
    if ch in m && ch !in r {
      SubscribedSnoc(calls, NativeUnsubscribe(ch));
      assert r == m - {ch};
    } else {
      assert calls + [] == calls;
      assert r.Keys == m.Keys;
      assert r == m || r[ch] != [];
    }
  }

  /**
   * The dictionary once `unsubscribe` has spliced the callback out of its
   * channel's list, before any native call. The splice is in place, so this
   * is what is left when `_unsubscribe` throws.
   */
  function RegistrySplice(m: map<string, seq<Listener>>, ch: string, cb: Option<Listener>): (r: map<string, seq<Listener>>)
    ensures r.Keys == m.Keys
    ensures forall c | c in m && c != ch :: r[c] == m[c]
    ensures ch in m && cb.None? ==> r[ch] == m[ch]
    ensures ch in m && cb.Some? ==> multiset(r[ch]) == multiset(m[ch]) - multiset{cb.value}
  {
    if ch in m && cb.Some? then m[ch := RemoveFirst(m[ch], cb.value)] else m
  }

  /** Whether `unsubscribe` calls `_unsubscribe`: on a known channel, with no callback or once the splice has emptied its list. */
  predicate UnsubscribesNatively(m: map<string, seq<Listener>>, ch: string, cb: Option<Listener>) {
    ch in m && (cb.None? || RemoveFirst(m[ch], cb.value) == [])
  }

  /**
   * `unsubscribe` is the splice, then the deletion of the channel exactly
   * when it calls `_unsubscribe`; that is exactly when a known channel
   * disappears.
   */
  lemma UnsubscribeIsSpliceThenDelete(m: map<string, seq<Listener>>, ch: string, cb: Option<Listener>)
    ensures RegistryUnsubscribe(m, ch, cb) ==
      if UnsubscribesNatively(m, ch, cb) then RegistrySplice(m, ch, cb) - {ch} else RegistrySplice(m, ch, cb)
    ensures UnsubscribesNatively(m, ch, cb) <==> ch in m && ch !in RegistryUnsubscribe(m, ch, cb)
  {
    if ch in m && cb.Some? {
      var l := RemoveFirst(m[ch], cb.value);
      assert RegistrySplice(m, ch, cb) - {ch} == m - {ch};
    }
  }

  /**
   * While every native call succeeds: lists are never empty, and the
   * channels with a list are exactly those subscribed natively, each once.
   */
  predicate InSync(m: map<string, seq<Listener>>, calls: seq<NativeCall>) {
    NonEmptyLists(m) && Balanced(calls) && Subscribed(calls) == m.Keys
  }

  /** Whatever the native calls do: every channel subscribed natively still has a list. */
  predicate Tracks(m: map<string, seq<Listener>>, calls: seq<NativeCall>) {
    Subscribed(calls) <= m.Keys
  }

  /** Whatever `_unsubscribe` does, no channel stays subscribed natively once the dictionary has dropped it. */
  lemma UnsubscribeKeepsTracked(m: map<string, seq<Listener>>, calls: seq<NativeCall>, ch: string, cb: Option<Listener>)
    requires Tracks(m, calls)
    ensures Tracks(RegistrySplice(m, ch, cb), calls)
    ensures UnsubscribesNatively(m, ch, cb) ==> Tracks(RegistryUnsubscribe(m, ch, cb), calls + [NativeUnsubscribe(ch)])
    ensures !UnsubscribesNatively(m, ch, cb) ==> Tracks(RegistryUnsubscribe(m, ch, cb), calls)
  {
    SubscribedSnoc(calls, NativeUnsubscribe(ch));
    UnsubscribeIsSpliceThenDelete(m, ch, cb);
  }

  /** The two invariants of the registry across one `unsubscribe`, by what `_unsubscribe` does. */
  lemma UnsubscribeInvariants(m: map<string, seq<Listener>>, calls: seq<NativeCall>, ch: string, cb: Option<Listener>)
    ensures InSync(m, calls) && UnsubscribesNatively(m, ch, cb) ==>
      InSync(RegistryUnsubscribe(m, ch, cb), calls + [NativeUnsubscribe(ch)])
    ensures InSync(m, calls) && !UnsubscribesNatively(m, ch, cb) ==> InSync(RegistryUnsubscribe(m, ch, cb), calls)
    ensures Tracks(m, calls) ==> Tracks(RegistrySplice(m, ch, cb), calls)
    ensures Tracks(m, calls) && UnsubscribesNatively(m, ch, cb) ==>
      Tracks(RegistryUnsubscribe(m, ch, cb), calls + [NativeUnsubscribe(ch)])
    ensures Tracks(m, calls) && !UnsubscribesNatively(m, ch, cb) ==> Tracks(RegistryUnsubscribe(m, ch, cb), calls)
  {
    UnsubscribeIsSpliceThenDelete(m, ch, cb);
    if InSync(m, calls) {
      UnsubscribeKeepsBalance(m, calls, ch, cb);
    }
    if Tracks(m, calls) {
      UnsubscribeKeepsTracked(m, calls, ch, cb);
    }
  }

  /** `indexOf`, then `splice(index, 1)` when found, on a list of callbacks. */
  method SpliceFirst(list: seq<Listener>, x: Listener) returns (r: seq<Listener>)
    ensures r == RemoveFirst(list, x)
  {
    r := list;
    var index := IndexOf(list, x);
    if index != -1 {
      r := list[..index] + list[index + 1..];
    }
  }

  /**
   * The steps of `unsubscribe` on the dictionary `m` and the native trace
   * `calls`: the splice, then `_unsubscribe` (whose outcome is
   * `nativeResult`) and the deletion once the list is empty or no callback
   * was given.
   */
  method UnsubscribeOn(m: map<string, seq<Listener>>, calls: seq<NativeCall>, ch: string, cb: Option<Listener>, nativeResult: Result<()>)
    returns (m': map<string, seq<Listener>>, calls': seq<NativeCall>, r: Result<()>)
    ensures !UnsubscribesNatively(m, ch, cb) ==> r == Ok(()) && m' == RegistryUnsubscribe(m, ch, cb) && calls' == calls
    ensures UnsubscribesNatively(m, ch, cb) && nativeResult.Ok? ==>
      r == Ok(()) && m' == RegistryUnsubscribe(m, ch, cb) && calls' == calls + [NativeUnsubscribe(ch)]
    ensures UnsubscribesNatively(m, ch, cb) && nativeResult.Err? ==>
      r == nativeResult && m' == RegistrySplice(m, ch, cb) && calls' == calls
  {
    UnsubscribeIsSpliceThenDelete(m, ch, cb);
    m', calls', r := m, calls, Ok(());
    if ch in m {
      var list := m[ch];
      if cb.Some? {
        list := SpliceFirst(list, cb.value);
      }
      assert m[ch := list] == RegistrySplice(m, ch, cb);
      m' := m[ch := list];
      if cb.None? || |list| == 0 {
        if nativeResult.Err? {
          r := nativeResult;
        } else {
          calls' := calls + [NativeUnsubscribe(ch)];
          m' := m - {ch};
        }
      }
    }
  }

  /** `options = {}`: an undefined argument defaults to an empty object. */
  function InitOptions(options: JsValue): (o: JsValue)
    ensures options == Undefined ==> o == Object(map[])
    ensures options != Undefined ==> o == options
  {
    if options == Undefined then Object(map[]) else options
  }

  class ListenerRegistry {
    /** listenersChannelMap */
    var listeners: map<string, seq<Listener>>
    /** The `initialized` flag of the closure. */
    var initialized: bool
    /**
     * The calls made into the native object, oldest first. A `_subscribe` or
     * `_unsubscribe` that throws is not recorded, since it subscribed or
     * unsubscribed nothing; an `_initialize` call is recorded whatever it
     * answers.
     */
    var nativeCalls: seq<NativeCall>

    /** The registry's invariant while every native call succeeds. */
    ghost predicate Valid()
      reads this
    {
      InSync(listeners, nativeCalls)
    }

    /** The registry's invariant whatever the native calls do. */
    ghost predicate Tracked()
      reads this
    {
      Tracks(listeners, nativeCalls)
    }

    constructor ()
      ensures Valid() && Tracked()
      ensures listeners == map[] && !initialized && nativeCalls == []
    {
      listeners := map[];
      initialized := false;
      nativeCalls := [];
    }

    /**
     * `init(options)`: calls `_initialize` only while not initialized and
     * caches what it answers; a native exception passes through and leaves
     * the flag unset. Once initialized it answers true without a native call.
     */
    method Init(options: JsValue, nativeResult: Result<bool>) returns (r: Result<bool>)
      modifies this
      ensures listeners == old(listeners)
      ensures old(Valid()) ==> Valid()
      ensures old(Tracked()) ==> Tracked()
      ensures old(initialized) ==> r == Ok(true) && initialized && nativeCalls == old(nativeCalls)
      ensures !old(initialized) ==>
        && nativeCalls == old(nativeCalls) + [NativeInitialize(InitOptions(options))]
        && r == nativeResult
        && initialized == (nativeResult == Ok(true))
    {
      if initialized {
        return Ok(true);
      }
      SubscribedSnoc(nativeCalls, NativeInitialize(InitOptions(options)));
      nativeCalls := nativeCalls + [NativeInitialize(InitOptions(options))];
      r := nativeResult;
      initialized := nativeResult == Ok(true);
    }

    /**
     * `subscribe(channel, callback)`: a channel without a list gets an empty
     * one and is subscribed natively, then the callback is appended. The list
     * is stored before `_subscribe` is called, so when the native call throws
     * (as it does before `init`) the empty list stays, the callback is not
     * appended, and every later `subscribe` of that channel skips
     * `_subscribe`. `nativeResult` is what `_subscribe` does.
     */
    method Subscribe(channel: string, callback: Listener, nativeResult: Result<()>) returns (r: Result<()>)
      modifies this
      ensures initialized == old(initialized)
      ensures channel in old(listeners) ==>
        && r == Ok(())
        && listeners == RegistrySubscribe(old(listeners), channel, callback)
        && nativeCalls == old(nativeCalls)
      ensures channel !in old(listeners) && nativeResult.Ok? ==>
        && r == Ok(())
        && listeners == RegistrySubscribe(old(listeners), channel, callback)
        && nativeCalls == old(nativeCalls) + [NativeSubscribe(channel)]
      ensures channel !in old(listeners) && nativeResult.Err? ==>
        && r == nativeResult
        && listeners == old(listeners)[channel := []]
        && nativeCalls == old(nativeCalls)
      ensures old(Valid()) && (channel in old(listeners) || nativeResult.Ok?) ==> Valid()
      ensures old(Tracked()) ==> Tracked()
    {
      if channel !in listeners {
        listeners := listeners[channel := []];
        if nativeResult.Err? {
          return nativeResult;
        }
        SubscribedSnoc(nativeCalls, NativeSubscribe(channel));
        nativeCalls := nativeCalls + [NativeSubscribe(channel)];
      }
      listeners := listeners[channel := listeners[channel] + [callback]];
      r := Ok(());
    }

    /**
     * `unsubscribe(channel, callback = null)`: on a known channel, splices out
     * the first occurrence of the callback; without a callback, or once the
     * list is empty, calls `_unsubscribe` and deletes the channel. An unknown
     * channel is left alone. The splice is done in place before
     * `_unsubscribe`, so when the native call throws the spliced list stays
     * and the channel is not deleted. `nativeResult` is what `_unsubscribe`
     * does.
     */
    method Unsubscribe(channel: string, callback: Option<Listener>, nativeResult: Result<()>) returns (r: Result<()>)
      modifies this
      ensures initialized == old(initialized)
      ensures !UnsubscribesNatively(old(listeners), channel, callback) ==>
        && r == Ok(())
        && listeners == RegistryUnsubscribe(old(listeners), channel, callback)
        && nativeCalls == old(nativeCalls)
      ensures UnsubscribesNatively(old(listeners), channel, callback) && nativeResult.Ok? ==>
        && r == Ok(())
        && listeners == RegistryUnsubscribe(old(listeners), channel, callback)
        && nativeCalls == old(nativeCalls) + [NativeUnsubscribe(channel)]
      ensures UnsubscribesNatively(old(listeners), channel, callback) && nativeResult.Err? ==>
        && r == nativeResult
        && listeners == RegistrySplice(old(listeners), channel, callback)
        && nativeCalls == old(nativeCalls)
      ensures old(Valid()) && (!UnsubscribesNatively(old(listeners), channel, callback) || nativeResult.Ok?) ==> Valid()
      ensures old(Tracked()) ==> Tracked()
    {
      UnsubscribeInvariants(listeners, nativeCalls, channel, callback);
      listeners, nativeCalls, r := UnsubscribeOn(listeners, nativeCalls, channel, callback, nativeResult);
    }

    /**
     * `dispatch(channel, value)`: the message callback handed to the native
     * layer. The legacy registry's `onMessage` is the same loop: both are
     * DispatchTo, specified by Invocations.
     */
    method Dispatch(channel: string, value: JsValue) returns (calls: seq<Invocation>)
      ensures calls == Invocations(listeners, channel, value)
    {
      calls := DispatchTo(listeners, channel, value);
    }
  }
}
