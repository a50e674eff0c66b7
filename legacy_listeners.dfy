/**
 * The listener registry of the legacy module (`index.js`): the same
 * dictionary of callbacks, installed as the native message callback when the
 * module loads. Its `unsubscribe` takes a callback always, and only a removal
 * that empties a channel's list unsubscribes the channel natively.
 */
module LegacyListeners {
  import opened Wrappers
  import opened JsValues
  import opened Listeners

  /**
   * index.js `unsubscribe` on the dictionary: an unregistered callback leaves
   * it unchanged; otherwise its first occurrence is removed, and the channel
   * deleted when its list became empty.
   */
  function LegacyUnsubscribe(m: map<string, seq<Listener>>, ch: string, cb: Listener): (r: map<string, seq<Listener>>)
    requires ch in m
    ensures cb !in m[ch] ==> r == m
    ensures cb in m[ch] && RemoveFirst(m[ch], cb) == [] ==> r == m - {ch}
    ensures cb in m[ch] && RemoveFirst(m[ch], cb) != [] ==> r == m[ch := RemoveFirst(m[ch], cb)]
    ensures NonEmptyLists(m) ==> NonEmptyLists(r)
  {
    var index := IndexOf(m[ch], cb);
    if index == -1 then m
    else
      var l := RemoveFirst(m[ch], cb);
      if l == [] then m - {ch} else m[ch := l]
  }

  /**
   * On a dictionary whose lists are never empty, the legacy unsubscribe of a
   * registered channel does what getInstance.js does with that callback.
   */
  lemma LegacyUnsubscribeAgrees(m: map<string, seq<Listener>>, ch: string, cb: Listener)
    requires NonEmptyLists(m) && ch in m
    ensures LegacyUnsubscribe(m, ch, cb) == RegistryUnsubscribe(m, ch, Some(cb))
  {
    if cb !in m[ch] {
      assert m[ch := m[ch]] == m;
    }
  }

  /** Unsubscribing the only callback of a channel deletes the channel. */
  lemma LegacyUnsubscribeOnlyCallback(m: map<string, seq<Listener>>, ch: string, cb: Listener)
    requires ch in m && m[ch] == [cb]
    ensures LegacyUnsubscribe(m, ch, cb) == m - {ch}
  {
  }

  class LegacyListenerRegistry {
    /** _listeners */
    var listeners: map<string, seq<Listener>>
    /** Every call made into the native object, oldest first. */
    var nativeCalls: seq<NativeCall>

    /** Lists are never empty, and the channels with a list are exactly those subscribed natively, each once. */
    ghost predicate Valid()
      reads this
    {
      NonEmptyLists(listeners) && Balanced(nativeCalls) && Subscribed(nativeCalls) == listeners.Keys
    }

    /** Loading the module: an empty dictionary, and the message callback installed natively. */
    constructor ()
      ensures Valid()
      ensures listeners == map[] && nativeCalls == [NativeSetMessageCallback]
    {
      listeners := map[];
      nativeCalls := [NativeSetMessageCallback];
      SubscribedSnoc([], NativeSetMessageCallback);
      assert [] + [NativeSetMessageCallback] == [NativeSetMessageCallback];
    }

    /** `subscribe`: the first callback of a channel subscribes it natively; every callback is appended. */
    method Subscribe(channel: string, callback: Listener)
      requires Valid()
      modifies this
      ensures Valid()
      ensures listeners == RegistrySubscribe(old(listeners), channel, callback)
      ensures nativeCalls == old(nativeCalls) + (if channel in old(listeners) then [] else [NativeSubscribe(channel)])
    {
      if channel !in listeners {
        SubscribedSnoc(nativeCalls, NativeSubscribe(channel));
        listeners := listeners[channel := []];
        nativeCalls := nativeCalls + [NativeSubscribe(channel)];
      }
      listeners := listeners[channel := listeners[channel] + [callback]];
    }

    /**
     * `unsubscribe(channel, callback)`: removes the first occurrence of a
     * registered callback, and unsubscribes the channel natively and deletes
     * it when that empties its list. The channel must have a list:
     * `indexOf` is called on it.
     */
    method Unsubscribe(channel: string, callback: Listener)
      requires Valid() && channel in listeners
      modifies this
      ensures Valid()
      ensures listeners == LegacyUnsubscribe(old(listeners), channel, callback)
      ensures nativeCalls == old(nativeCalls) + (if channel !in listeners then [NativeUnsubscribe(channel)] else [])
    {
      var list := listeners[channel];
      if callback in list {
        list := SpliceFirst(list, callback);
        if |list| == 0 {
          SubscribedSnoc(nativeCalls, NativeUnsubscribe(channel));
          nativeCalls := nativeCalls + [NativeUnsubscribe(channel)];
          listeners := listeners - {channel};
        } else {
          listeners := listeners[channel := list];
        }
      }
    }

    /**
     * The message callback: the value forwarded to each callback of the
     * channel, in order. Both targets dispatch alike, so this and
     * Listeners.ListenerRegistry.Dispatch share one definition,
     * Listeners.DispatchTo, specified by Listeners.Invocations.
     */
    method OnMessage(channel: string, value: JsValue) returns (calls: seq<Invocation>)
      ensures calls == Invocations(listeners, channel, value)
    {
      calls := DispatchTo(listeners, channel, value);
    }
  }
}
