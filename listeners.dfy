/**
 * Value listeners: a handler keeps a dictionary from a key
 * `(property, params)` to the callback it added to a host object. Starting
 * to listen replaces whatever was registered under the key and runs the new
 * callback once, so the client gets the current value at once; stopping
 * takes the callback off the host object again, or only warns when nothing
 * is registered.
 *
 * The host side is modelled by the listener list of each host object
 * (`hostListeners`); the messages the callbacks send go to `sent`.
 */
module Listeners {
  import opened Values

  /**
   * `(prop, tuple(params))`: what a listener is registered under, as the
   * dictionary compares it. Build keys with `ListenerKey`.
   */
  datatype Key = Key(prop: string, params: seq<Value>)

  /**
   * The key for `prop` and the message arguments `params`. Each argument is
   * replaced by its representative under Python's `==`, so that `(0, 1, 2)`,
   * `(0.0, 1.0, 2)` and `(False, True, 2)` give the same key, as they do
   * in a Python dictionary.
   */
  function ListenerKey(prop: string, params: seq<Value>): (k: Key)
    ensures k.prop == prop && |k.params| == |params|
  {
    Key(prop, seq(|params|, i requires 0 <= i < |params| => Canonical(params[i])))
  }

  /**
   * Two requests name the same listener exactly when the properties are
   * equal and the argument tuples are equal element by element under
   * Python's `==`.
   */
  lemma SameListenerKey(prop: string, params: seq<Value>, prop': string, params': seq<Value>)
    ensures ListenerKey(prop, params) == ListenerKey(prop', params') <==>
            prop == prop' && |params| == |params'| &&
            forall i :: 0 <= i < |params| ==> PyEquals(params[i], params'[i])
  {
    var k, k' := ListenerKey(prop, params), ListenerKey(prop', params');
    if |params| == |params'| {
      forall i | 0 <= i < |params|
        ensures k.params[i] == k'.params[i] <==> PyEquals(params[i], params'[i])
      {
        CanonicalMatchesPyEquals(params[i], params'[i]);
      }
    }
  }

  /** A listener started with float indices is the one a request with integer indices names. */
  lemma FloatAndIntArgumentsShareKey()
    ensures ListenerKey(ParameterValueProperty, [Real(0.0), Real(1.0), Int(2)]) ==
            ListenerKey(ParameterValueProperty, [Int(0), Int(1), Int(2)])
    ensures ListenerKey(ParameterValueProperty, [Bool(false), Bool(true), Int(2)]) ==
            ListenerKey(ParameterValueProperty, [Int(0), Int(1), Int(2)])
    ensures ListenerKey(ParameterValueProperty, [Real(0.5), Int(1), Int(2)]) !=
            ListenerKey(ParameterValueProperty, [Int(0), Int(1), Int(2)])
  {
    SameListenerKey(ParameterValueProperty, [Real(0.0), Real(1.0), Int(2)], ParameterValueProperty, [Int(0), Int(1), Int(2)]);
    SameListenerKey(ParameterValueProperty, [Bool(false), Bool(true), Int(2)], ParameterValueProperty, [Int(0), Int(1), Int(2)]);
    assert ListenerKey(ParameterValueProperty, [Real(0.5), Int(1), Int(2)]).params[0] == Real(0.5);
  }

  /** A host object that keeps value listeners (a mixer or device parameter), by identity. */
  type Target = nat

  /**
   * A callback created by a start request. `id` numbers callbacks in
   * creation order (each is a new closure); the closure captures the key
   * it was made for and the host object it reads.
   */
  datatype Callback = Callback(id: nat, key: Key, target: Target)

  /** A message sent to the client. */
  datatype Reply = Reply(address: string, args: seq<Value>)

  /**
   * How a stop request ends: the listener was removed, none was registered
   * (a warning), the host raised on the removal, or looking up the object
   * to remove it from raised.
   */
  datatype StopResult = Removed | NotFound | HostRaised | LookupFailed(error: Error)

  /** The host object a request names, or the exception naming it raised. */
  datatype Lookup = Found(target: Target) | Missing(error: Error)

  /** The property name under which device parameter listeners are registered. */
  const ParameterValueProperty: string := "device_parameter_value"

  /**
   * The registry and the host side it acts on: `callbacks` is
   * `listener_functions`; `hostListeners` the listener list of each host
   * object; `sent` every message sent so far; `nextId` the number of the
   * next callback.
   */
  datatype Registry = Registry(
    callbacks: map<Key, Callback>,
    hostListeners: map<Target, seq<Callback>>,
    sent: seq<Reply>,
    nextId: nat)

  /** The listeners of host object `t`; an object never listened to has none. */
  function ListenersIn(hl: map<Target, seq<Callback>>, t: Target): seq<Callback>
  {
    if t in hl then hl[t] else []
  }

  /** The host's `remove_value_listener` on a list: the first occurrence of `c` goes. */
  function RemoveFirst(s: seq<Callback>, c: Callback): (r: seq<Callback>)
    ensures c in s ==> multiset(r) == multiset(s) - multiset{c}
    ensures c !in s ==> r == s
    ensures |r| == if c in s then |s| - 1 else |s|
  {
    if s == [] then []
    else
      assert s == [s[0]] + s[1..];
      assert multiset(s) == multiset{s[0]} + multiset(s[1..]);
      if s[0] == c then s[1..]
      else
        var tail := RemoveFirst(s[1..], c);
        assert multiset([s[0]] + tail) == multiset{s[0]} + multiset(tail);
        [s[0]] + tail
  }

  /** What is left after removing the only occurrence of `c` was there before and is not `c`. */
  lemma RemoveOnlyOccurrence(s: seq<Callback>, c: Callback, d: Callback)
    requires multiset(s)[c] == 1
    requires d in RemoveFirst(s, c)
    ensures d in s && d != c
  {
    var rest := RemoveFirst(s, c);
    assert multiset(rest)[d] > 0;
    assert multiset(rest)[c] == 0;
  }

  // ---------------------------------------------------------------------
  // The invariant: one host listener per registered key
  // ---------------------------------------------------------------------

  /**
   * The callback of every registered key was made for that key, is already
   * numbered, and is a listener of the object it reads exactly once.
   */
  ghost predicate OneListenerEach(r: Registry)
  {
    forall k | k in r.callbacks ::
      r.callbacks[k].key == k && r.callbacks[k].id < r.nextId &&
      multiset(ListenersIn(r.hostListeners, r.callbacks[k].target))[r.callbacks[k]] == 1
  }

  /** Every host listener is the registered callback of its key, on the object it reads. */
  ghost predicate NoStrays(r: Registry)
  {
    forall t, c | t in r.hostListeners && c in r.hostListeners[t] ::
      c.target == t && c.key in r.callbacks && r.callbacks[c.key] == c
  }

  ghost predicate Consistent(r: Registry)
  {
    OneListenerEach(r) && NoStrays(r)
  }

  /** The empty registry of a new handler. */
  function EmptyRegistry(): (r: Registry)
    ensures Consistent(r)
    ensures r.callbacks == map[] && r.sent == []
  {
    Registry(map[], map[], [], 0)
  }

  // ---------------------------------------------------------------------
  // Stop and start, as transitions of the registry
  // ---------------------------------------------------------------------

  /**
   * The removal a stop request makes: the callback registered under `key`
   * is taken off the listeners of `target` and the key is deleted.
   */
  function Unregister(r: Registry, key: Key, target: Target): Registry
    requires key in r.callbacks
  {
    r.(callbacks := r.callbacks - {key},
       hostListeners := r.hostListeners[target := RemoveFirst(ListenersIn(r.hostListeners, target), r.callbacks[key])])
  }

  /**
   * Stopping the listener of `key` on `target`: the registered callback is
   * taken off the object (the host raises when it is not one of the
   * object's listeners) and the key deleted; with nothing registered only
   * a warning is logged.
   */
  function StopListen(r: Registry, key: Key, target: Target): (StopResult, Registry)
  {
    if key !in r.callbacks then (NotFound, r)
    else
      var c := r.callbacks[key];
      var listeners := ListenersIn(r.hostListeners, target);
      if c !in listeners then (HostRaised, r)
      else (Removed, Unregister(r, key, target))
  }

  /**
   * The second half of a start request: a new callback for `key` is added
   * to the listeners of `target`, registered under `key` and run once.
   */
  function AddCallback(r: Registry, key: Key, target: Target, replies: seq<Reply>): Registry
  {
    var c := Callback(r.nextId, key, target);
    r.(callbacks := r.callbacks[key := c],
       hostListeners := r.hostListeners[target := ListenersIn(r.hostListeners, target) + [c]],
       sent := r.sent + replies,
       nextId := r.nextId + 1)
  }

  /**
   * Starting to listen to `key` on `target`: an existing registration is
   * stopped first and a host exception there ends the request; then a new
   * callback is added to the object, registered under the key, and run
   * once, sending `replies`.
   */
  function StartListen(r: Registry, key: Key, target: Target, replies: seq<Reply>): (Outcome, Registry)
  {
    var stopped := if key in r.callbacks then StopListen(r, key, target) else (NotFound, r);
    if stopped.0 == HostRaised then (Raised(HostError), r)
    else (Silent, AddCallback(stopped.1, key, target, replies))
  }

  /** A registered callback is a listener of exactly the object it reads. */
  lemma ListenerLocation(r: Registry, key: Key, t: Target)
    requires Consistent(r)
    requires key in r.callbacks
    ensures r.callbacks[key] in ListenersIn(r.hostListeners, t) <==> r.callbacks[key].target == t
  {
    var c := r.callbacks[key];
    assert multiset(ListenersIn(r.hostListeners, c.target))[c] == 1;
    if c in ListenersIn(r.hostListeners, t) {
      assert t in r.hostListeners && c in r.hostListeners[t];
    }
  }

  /** Every listener of an object is an already numbered callback. */
  lemma ListenersAreNumbered(r: Registry, t: Target)
    requires Consistent(r)
    ensures forall d | d in ListenersIn(r.hostListeners, t) :: d.id < r.nextId
  {
    forall d | d in ListenersIn(r.hostListeners, t)
      ensures d.id < r.nextId
    {
      assert t in r.hostListeners && d in r.hostListeners[t];
      assert r.callbacks[d.key] == d;
    }
  }

  /** Removing a registered callback from the object it reads keeps every other key's single listener. */
  lemma RemoveKeepsOneListenerEach(r: Registry, key: Key, target: Target)
    requires Consistent(r)
    requires key in r.callbacks && r.callbacks[key].target == target
    ensures OneListenerEach(Unregister(r, key, target))
    ensures r.callbacks[key] !in ListenersIn(Unregister(r, key, target).hostListeners, target)
  {
    var c := r.callbacks[key];
    ListenerLocation(r, key, target);
    var s := Unregister(r, key, target);
    var listeners := ListenersIn(r.hostListeners, target);
    var rest := RemoveFirst(listeners, c);
    assert multiset(listeners)[c] == 1;
    assert multiset(rest)[c] == 0;
    forall k | k in s.callbacks
      ensures s.callbacks[k].key == k && s.callbacks[k].id < s.nextId &&
              multiset(ListenersIn(s.hostListeners, s.callbacks[k].target))[s.callbacks[k]] == 1
    {
      assert r.callbacks[k] != c;
    }
  }

  /** Removing a registered callback from the object it reads leaves no stray listener. */
  lemma RemoveKeepsNoStrays(r: Registry, key: Key, target: Target)
    requires Consistent(r)
    requires key in r.callbacks && r.callbacks[key].target == target
    ensures NoStrays(Unregister(r, key, target))
  {
    var c := r.callbacks[key];
    ListenerLocation(r, key, target);
    var s := Unregister(r, key, target);
    var listeners := ListenersIn(r.hostListeners, target);
    assert multiset(listeners)[c] == 1;
    forall u, d | u in s.hostListeners && d in s.hostListeners[u]
      ensures d.target == u && d.key in s.callbacks && s.callbacks[d.key] == d
    {
      if u == target {
        RemoveOnlyOccurrence(listeners, c, d);
        assert d in r.hostListeners[target];
      } else {
        assert d in r.hostListeners[u];
      }
    }
  }

  /**
   * A stop request: it removes exactly when the key is registered with a
   * callback on `target`; it only warns when the key is not registered;
   * after a removal the key is gone, its callback is no listener of the
   * object any more and every other key keeps its callback. A request that
   * removes nothing changes nothing. The invariant is kept.
   */
  lemma StopListenOutcome(r: Registry, key: Key, target: Target)
    requires Consistent(r)
    ensures var (result, s) := StopListen(r, key, target);
            Consistent(s) &&
            (result == NotFound <==> key !in r.callbacks) &&
            (result == Removed <==> key in r.callbacks && r.callbacks[key].target == target) &&
            (result == Removed ==>
               s.callbacks == r.callbacks - {key} &&
               r.callbacks[key] !in ListenersIn(s.hostListeners, target)) &&
            (result != Removed ==> s == r) &&
            s.sent == r.sent && s.nextId == r.nextId
  {
    if key in r.callbacks {
      ListenerLocation(r, key, target);
      if r.callbacks[key].target == target {
        RemoveKeepsOneListenerEach(r, key, target);
        RemoveKeepsNoStrays(r, key, target);
      }
    }
  }

  /** Adding a fresh callback under a free key gives that key a single listener and keeps the others'. */
  lemma AddKeepsOneListenerEach(r: Registry, key: Key, target: Target, replies: seq<Reply>)
    requires Consistent(r)
    requires key !in r.callbacks
    ensures var s := AddCallback(r, key, target, replies);
            OneListenerEach(s) && s.callbacks[key] == Callback(r.nextId, key, target) &&
            multiset(ListenersIn(s.hostListeners, target))[s.callbacks[key]] == 1
  {
    var c := Callback(r.nextId, key, target);
    var before := ListenersIn(r.hostListeners, target);
    ListenersAreNumbered(r, target);
    var s := AddCallback(r, key, target, replies);
    assert s.hostListeners[target] == before + [c];
    assert multiset(before + [c]) == multiset(before) + multiset{c};
    forall k | k in s.callbacks
      ensures s.callbacks[k].key == k && s.callbacks[k].id < s.nextId &&
              multiset(ListenersIn(s.hostListeners, s.callbacks[k].target))[s.callbacks[k]] == 1
    {
      if k != key {
        assert r.callbacks[k] != c;
        assert multiset(ListenersIn(r.hostListeners, r.callbacks[k].target))[r.callbacks[k]] == 1;
      }
    }
  }

  /** Adding a fresh callback under a free key leaves no stray listener. */
  lemma AddKeepsNoStrays(r: Registry, key: Key, target: Target, replies: seq<Reply>)
    requires Consistent(r)
    requires key !in r.callbacks
    ensures NoStrays(AddCallback(r, key, target, replies))
  {
    var c := Callback(r.nextId, key, target);
    var before := ListenersIn(r.hostListeners, target);
    var s := AddCallback(r, key, target, replies);
    assert s.hostListeners[target] == before + [c];
    forall u, d | u in s.hostListeners && d in s.hostListeners[u]
      ensures d.target == u && d.key in s.callbacks && s.callbacks[d.key] == d
    {
      if u == target && d != c {
        assert d in before;
        assert d in r.hostListeners[target];
        assert d.key != key;
      } else if u != target {
        assert d in r.hostListeners[u];
        assert d.key != key;
      }
    }
  }

  /** Adding a fresh callback to an object and registering it under a free key keeps the invariant. */
  lemma AddListenerKeepsConsistent(r: Registry, key: Key, target: Target, replies: seq<Reply>)
    requires Consistent(r)
    requires key !in r.callbacks
    ensures var s := AddCallback(r, key, target, replies);
            Consistent(s) && s.callbacks[key] == Callback(r.nextId, key, target) &&
            multiset(ListenersIn(s.hostListeners, target))[s.callbacks[key]] == 1
  {
    AddKeepsOneListenerEach(r, key, target, replies);
    AddKeepsNoStrays(r, key, target, replies);
  }

  /**
   * A start request fails exactly when the host raises on the stop it
   * begins with: the key is registered with a callback on another object.
   * Then nothing changes; otherwise the request answers nothing.
   */
  lemma StartListenRaises(r: Registry, key: Key, target: Target, replies: seq<Reply>)
    requires Consistent(r)
    ensures var (out, s) := StartListen(r, key, target, replies);
            (out == Silent || out == Raised(HostError)) &&
            (out == Raised(HostError) <==> key in r.callbacks && r.callbacks[key].target != target) &&
            (out.Raised? ==> s == r)
  {
    if key in r.callbacks {
      ListenerLocation(r, key, target);
    }
  }

  /** A successful start registers the new callback under the key and leaves every other key as it was. */
  lemma StartListenCallbacks(r: Registry, key: Key, target: Target, replies: seq<Reply>)
    requires Consistent(r)
    requires key in r.callbacks ==> r.callbacks[key].target == target
    ensures StartListen(r, key, target, replies).1.callbacks == r.callbacks[key := Callback(r.nextId, key, target)]
  {
    if key in r.callbacks {
      StopListenOutcome(r, key, target);
      assert StopListen(r, key, target).1.callbacks == r.callbacks - {key};
    }
  }

  /**
   * A start request that succeeds replaces the registration: the key ends
   * up with a new callback that is the object's only listener for it, the
   * previous callback (if any) is no listener of the object any more, every
   * other key keeps its callback, and the replies of the first run were
   * sent. The invariant is kept.
   */
  lemma StartListenReplaces(r: Registry, key: Key, target: Target, replies: seq<Reply>)
    requires Consistent(r)
    requires key in r.callbacks ==> r.callbacks[key].target == target
    ensures var (out, s) := StartListen(r, key, target, replies);
            out == Silent && Consistent(s) &&
            key in s.callbacks && s.callbacks[key] == Callback(r.nextId, key, target) &&
            multiset(ListenersIn(s.hostListeners, target))[s.callbacks[key]] == 1 &&
            (key in r.callbacks ==> r.callbacks[key] !in ListenersIn(s.hostListeners, target)) &&
            (forall k | k in r.callbacks && k != key :: k in s.callbacks && s.callbacks[k] == r.callbacks[k]) &&
            s.callbacks == r.callbacks[key := Callback(r.nextId, key, target)] &&
            s.sent == r.sent + replies
  {
    StartListenCallbacks(r, key, target, replies);
    if key in r.callbacks {
      StopListenOutcome(r, key, target);
      var mid := StopListen(r, key, target).1;
      AddListenerKeepsConsistent(mid, key, target, replies);
      var s := AddCallback(mid, key, target, replies);
      assert ListenersIn(s.hostListeners, target) == ListenersIn(mid.hostListeners, target) + [s.callbacks[key]];
    } else {
      AddListenerKeepsConsistent(r, key, target, replies);
    }
  }

  /**
   * Starting the same listener twice on the same object leaves one
   * callback, the second, as the object's only listener for the key; the
   * first is gone and the client got both first runs' replies.
   */
  lemma StartTwiceKeepsOneListener(r: Registry, key: Key, target: Target, replies: seq<Reply>)
    requires Consistent(r)
    requires key !in r.callbacks
    ensures var (out1, s1) := StartListen(r, key, target, replies);
            var (out2, s2) := StartListen(s1, key, target, replies);
            out1 == Silent && out2 == Silent &&
            s2.callbacks[key] == Callback(r.nextId + 1, key, target) &&
            multiset(ListenersIn(s2.hostListeners, target))[s2.callbacks[key]] == 1 &&
            Callback(r.nextId, key, target) !in ListenersIn(s2.hostListeners, target) &&
            s2.sent == r.sent + replies + replies
  {
    StartListenReplaces(r, key, target, replies);
    var s1 := StartListen(r, key, target, replies).1;
    StartListenReplaces(s1, key, target, replies);
  }

  // ---------------------------------------------------------------------
  // The handlers' registry, updated in place
  // ---------------------------------------------------------------------

  /** The listener registry of one handler, together with the host listener lists it acts on. */
  class ListenerRegistry {
    /** `listener_functions`: the callback registered under each key. */
    var callbacks: map<Key, Callback>
    /** The value listeners of each host object. */
    var hostListeners: map<Target, seq<Callback>>
    /** Every message sent to the client so far. */
    var sent: seq<Reply>
    /** The number of the next callback to be created. */
    var nextId: nat

    /** The fields as one value. */
    function State(): Registry
      reads this
    {
      Registry(callbacks, hostListeners, sent, nextId)
    }

    /** One host listener per registered key, and no other host listeners. */
    ghost predicate Valid()
      reads this
    {
      Consistent(State())
    }

    constructor()
      ensures State() == EmptyRegistry()
      ensures Valid()
    {
      callbacks := map[];
      hostListeners := map[];
      sent := [];
      nextId := 0;
    }

    /** The stop request, as `StopListen` describes it. */
    method Stop(key: Key, target: Target) returns (result: StopResult)
      requires Valid()
      modifies this
      ensures Valid()
      ensures (result, State()) == StopListen(old(State()), key, target)
    {
      StopListenOutcome(State(), key, target);
      if key !in callbacks {
        return NotFound;
      }
      var c := callbacks[key];
      var listeners := ListenersIn(hostListeners, target);
      if c !in listeners {
        return HostRaised;
      }
      ghost var s := Unregister(State(), key, target);
      hostListeners := hostListeners[target := RemoveFirst(listeners, c)];
      callbacks := callbacks - {key};
      assert State() == s;
      result := Removed;
    }

    /** The start request, as `StartListen` describes it. */
    method Start(key: Key, target: Target, replies: seq<Reply>) returns (r: Outcome)
      requires Valid()
      modifies this
      ensures Valid()
      ensures (r, State()) == StartListen(old(State()), key, target, replies)
    {
      if key in callbacks {
        StopListenOutcome(State(), key, target);
        var stopped := Stop(key, target);
        if stopped == HostRaised {
          return Raised(HostError);
        }
      }
      Register(key, target, replies);
      r := Silent;
    }

    /** Adds a new callback for a free key to the object, records it and runs it once. */
    method Register(key: Key, target: Target, replies: seq<Reply>)
      requires Valid()
      requires key !in callbacks
      modifies this
      ensures Valid()
      ensures State() == AddCallback(old(State()), key, target, replies)
    {
      ghost var s := AddCallback(State(), key, target, replies);
      AddListenerKeepsConsistent(State(), key, target, replies);
      var c := Callback(nextId, key, target);
      hostListeners := hostListeners[target := ListenersIn(hostListeners, target) + [c]];
      callbacks := callbacks[key := c];
      sent := sent + replies;
      nextId := nextId + 1;
      assert State() == s;
    }

    /**
     * `_start_mixer_listen(target, prop, params)`: the callback sends
     * `params` followed by the current value to `/live/track/get/<prop>`,
     * once now and again whenever the host calls it.
     */
    method StartMixerListen(prop: string, params: seq<Value>, target: Target, value: Value) returns (r: Outcome)
      requires Valid()
      modifies this
      ensures Valid()
      ensures (r, State()) ==
              StartListen(old(State()), ListenerKey(prop, params), target, [Reply("/live/track/get/" + prop, params + [value])])
    {
      r := Start(ListenerKey(prop, params), target, [Reply("/live/track/get/" + prop, params + [value])]);
    }

    /** `_stop_mixer_listen(target, prop, params)`. */
    method StopMixerListen(prop: string, params: seq<Value>, target: Target) returns (result: StopResult)
      requires Valid()
      modifies this
      ensures Valid()
      ensures (result, State()) == StopListen(old(State()), ListenerKey(prop, params), target)
    {
      result := Stop(ListenerKey(prop, params), target);
    }

    /**
     * `device_get_parameter_value_listener(device, params)`: `params` holds
     * the track and device indices, then the parameter index, and the key
     * is `('device_parameter_value', params)`. The parameter
     * `device.parameters[params[2]]` is looked up first (by the stop, when
     * the key is registered, otherwise before adding); when that raises,
     * nothing changes. The callback sends `params` followed by the
     * parameter's value to `/live/device/get/parameter/value`, then
     * `params` followed by the host's text for it to
     * `/live/device/get/parameter/value_string`.
     */
    method StartParameterListen(params: seq<Value>, parameters: seq<Target>, value: real, valueString: string)
      returns (r: Outcome)
      requires Valid()
      modifies this
      ensures Valid()
      ensures ParameterTarget(params, parameters).Missing? ==>
                r == Raised(ParameterTarget(params, parameters).error) && State() == old(State())
      ensures ParameterTarget(params, parameters).Found? ==>
                (r, State()) ==
                StartListen(old(State()), ListenerKey(ParameterValueProperty, params), ParameterTarget(params, parameters).target,
                            [Reply("/live/device/get/parameter/value", params + [Real(value)]),
                             Reply("/live/device/get/parameter/value_string", params + [Text(valueString)])])
    {
      var lookup := ParameterTarget(params, parameters);
      if lookup.Missing? {
        return Raised(lookup.error);
      }
      r := Start(ListenerKey(ParameterValueProperty, params), lookup.target,
                 [Reply("/live/device/get/parameter/value", params + [Real(value)]),
                  Reply("/live/device/get/parameter/value_string", params + [Text(valueString)])]);
    }

    /**
     * `device_get_parameter_remove_value_listener(device, params)`: with
     * the key unregistered only a warning is logged and the parameter is
     * never looked up; otherwise the lookup of `device.parameters[params[2]]`
     * may raise (and nothing changes), or the stop proceeds on that
     * parameter.
     */
    method StopParameterListen(params: seq<Value>, parameters: seq<Target>) returns (result: StopResult)
      requires Valid()
      modifies this
      ensures Valid()
      ensures ListenerKey(ParameterValueProperty, params) !in old(callbacks) ==>
                result == NotFound && State() == old(State())
      ensures ListenerKey(ParameterValueProperty, params) in old(callbacks) && ParameterTarget(params, parameters).Missing? ==>
                result == LookupFailed(ParameterTarget(params, parameters).error) && State() == old(State())
      ensures ListenerKey(ParameterValueProperty, params) in old(callbacks) && ParameterTarget(params, parameters).Found? ==>
                (result, State()) ==
                StopListen(old(State()), ListenerKey(ParameterValueProperty, params), ParameterTarget(params, parameters).target)
    {
      var key := ListenerKey(ParameterValueProperty, params);
      if key !in callbacks {
        return NotFound;
      }
      var lookup := ParameterTarget(params, parameters);
      if lookup.Missing? {
        return LookupFailed(lookup.error);
      }
      result := Stop(key, lookup.target);
    }
  }

  /**
   * `device.parameters[params[2]]`, with `parameters` the identities of the
   * device's parameters: a tuple without a third entry raises IndexError, a
   * third entry that is not an integer raises TypeError, and an index
   * outside the list raises IndexError (negative indices count from the end).
   */
  function ParameterTarget(params: seq<Value>, parameters: seq<Target>): (r: Lookup)
    ensures r.Found? <==>
              |params| >= 3 && AsIndex(params[2]).Some? && PyIndex(|parameters|, AsIndex(params[2]).value).Some?
    ensures r.Found? ==> r.target == parameters[PyIndex(|parameters|, AsIndex(params[2]).value).value]
    ensures r.Missing? ==>
              r.error == if |params| >= 3 && !(params[2].Int? || params[2].Bool?) then TypeError else IndexError
  {
    if |params| < 3 then Missing(IndexError)
    else match AsIndex(params[2])
      case None => Missing(TypeError)
      case Some(i) =>
        match PyIndex(|parameters|, i)
        case None => Missing(IndexError)
        case Some(k) => Found(parameters[k])
  }
}
