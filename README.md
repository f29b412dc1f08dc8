# AbletonOSC track and device handlers, modelled in Dafny

AbletonOSC exposes Ableton Live's object model over OSC. This project models
the logic of its track and device handlers (`abletonosc/track.py` and
`abletonosc/device.py`) that does not depend on the host runtime:

- **The device-tree flattener** (`get_all_devices`, `get_all_sub_rack_devices`,
  `convert_dict_to_list`). A track's devices, with racks holding chains of
  further devices, become one pre-order list. Every per-device request
  addresses a device by its position in that list.
  - `DeviceTree.Flatten` is the specification.
  - The original loops, including the scratch list that is reused and
    cleared for every rack, are modelled as methods over a small `DeviceList`
    class and proved equal to `Flatten`.
  - `device.py` carries a second copy of the same two functions (lines
    5-44). Apart from how a rack is recognised and two debugging `print`
    calls (device.py:9 and 36), neither of which is modelled (see below),
    it does the same, so one model serves both copies.
- **Track addressing and wildcard fan-out** (`track_callback`). A track
  index addresses `tracks + return_tracks + (master,)`, with Python's
  negative indexing. `*` expands to the regular tracks only. The loop
  returns the first reply that is not `None`, prefixed with its track index.
- **Device addressing** (`device_callback`). The device index is resolved in
  the track's flattened list, and a reply is prefixed with both indices.
- **Parameter handlers.** These are the parameter list getters, the single
  parameter getters, the bulk and single value writes (in place, on an
  `array`), and the chain-name list of a rack.
- **Pipe-separated names.** A name containing `" | "` is sent as its parts.
  This is modelled by a split/join pair and the append loop that expands a
  list of names.
- **Routing by display name.** The four routing setters assign the first
  available entry whose display name matches, or warn and change nothing.
- **Value listeners** (`_start_mixer_listen`/`_stop_mixer_listen` and the
  device parameter listener pair). The registry maps a key
  `(prop, params)` to the callback the handler added to a host object.
  - Keys compare as in a Python dictionary: `0`, `0.0` and `False` are the
    same argument (`ListenerKey`, `SameListenerKey`).
  - Start stops any existing registration first, adds a new callback,
    records it and runs it once.
  - Stop removes the callback from the host and deletes the key, or only
    warns when the key is not registered.
  - The transitions are pure functions (`StopListen`, `StartListen`) over a
    `Registry` value. The invariant "every registered key has exactly one
    host listener, and there is no other host listener" is proved preserved
    by both.
  - The class `ListenerRegistry` holds the same state in fields. Its
    methods are proved to perform exactly those transitions and to keep the
    invariant (`Valid`).
  - The device parameter pair first looks up `device.parameters[params[2]]`.
    When that lookup raises, nothing changes.

Host objects are compared by identity in the original code. The model gives
them an `id` field and compares them as values. This rests on an assumption:
two objects with equal `id`s are the same host object, and so have the same
fields. Two distinct objects that happen to have equal fields and equal ids
cannot arise under it.

Two behaviours of the code are easy to misread:

- A wildcard request answers with the first reply that is not `None` and
  stops. It does not send one reply per track (`WildcardStopsAtFirstReply`).
- `*` expands to the regular tracks only, never to the return tracks or the
  master (`WildcardAddressesRegularTracks`).

## Model

| member | source | states |
|---|---|---|
| Values.PyIndex | abletonosc/track.py:22 | A list index is valid exactly when `-n <= i < n`; the position read is `i`, or `n + i` for a negative index. |
| Values.CanonicalMatchesPyEquals | abletonosc/device.py:156 | Two message arguments get the same dictionary representative exactly when Python's `==` holds between them: numbers compare by value across `int`, `float` and `bool`; anything else compares as it is. |
| Values.AsIndex | abletonosc/device.py:161 | A list index is taken from an `int` or a `bool` (as 0 or 1), and from nothing else; the index equals the argument's numeric value. |
| Values.FirstIndexOf | abletonosc/track.py:386 | `[i for i, x in enumerate(s) if x == y][0]`: the result holds `y` and no earlier position does. It is `None` (IndexError) exactly when `y` is absent. |
| LiveSet.AllTracks | abletonosc/track.py:22 | The addressable list has one entry per regular and return track plus one, and the master track is last. |
| LiveSet.AllTracksLayout | abletonosc/track.py:22 | Regular tracks come first, at their own indices, then the return tracks, in order. |
| LiveSet.ResolveTrack | abletonosc/track.py:22 | A track index resolves exactly when it is within `±` the list length, and the track it gives is one of the song's tracks. |
| LiveSet.ResolveTrackAddresses | abletonosc/track.py:22 | Index `k < n` is regular track `k`. The next indices are the return tracks. The last index and `-1` are the master. A negative index counts back from the end. |
| DeviceTree.ResolveDevice | abletonosc/device.py:56-57 | A device index resolves exactly when it is within `±` the flat list length. The result is the flat entry at that index, counted from the end when negative. |
| DeviceTree.FlattenLength | abletonosc/track.py:270-288 | The flat list is as long as the number of nodes in the device forest (`SizeAll`). |
| DeviceTree.FlattenNodes | abletonosc/track.py:270-288 | Every node of the forest occurs in the flat list exactly as often as in the forest, so each device appears once. |
| DeviceTree.RackWithoutChainDevices | abletonosc/track.py:275-285 | A rack whose chains hold no devices, or which has no chains, contributes exactly itself. |
| DeviceTree.TopLevelPlacement | abletonosc/track.py:274-287 | Top-level device `i` sits at flat position `Offset(ds, i)`, followed by its whole subtree in pre-order. |
| DeviceTree.TopLevelInOrder | abletonosc/track.py:274-287 | Top-level devices keep their relative order, and a device's subtree ends before the next top-level device. |
| DeviceTree.ChainPlacement | abletonosc/track.py:278-283 | Inside a rack, chain `i`'s devices occupy one contiguous block, after those of the chains before it. |
| DeviceTree.WorkedExample | abletonosc/track.py:270-288 | `[A, B{[C], [D{[E]}]}]` flattens to `[A, B, C, D, E]`. |
| DeviceTree.DeviceList.Append | abletonosc/track.py:280 | `list.append(d)` adds `d` at the end. |
| DeviceTree.DeviceList.Extend | abletonosc/track.py:283 | `list.extend(ds)` adds `ds` at the end, in order. |
| DeviceTree.DeviceList.Clear | abletonosc/track.py:277 | `list.clear()` empties the list. |
| DeviceTree.CollectChain | abletonosc/track.py:256-262 | The inner loop appends each device of a chain, followed for a rack by everything below it. The list grows by exactly `Flatten(chain.devices)`. |
| DeviceTree.GetAllSubRackDevices | abletonosc/track.py:253-263 | The result is everything below the rack, chain by chain, in pre-order: `FlattenChains(rack.chains)`. |
| DeviceTree.CollectRack | abletonosc/track.py:276-283 | After clearing, the scratch list holds exactly the rack's flattened chains. |
| DeviceTree.GetAllDevices | abletonosc/track.py:270-288 | The loop with the reused scratch list returns `Flatten(track.devices)`. Clearing the scratch list never changes entries already emitted. |
| PipeNames.FindSeparator | abletonosc/track.py:91 | The first occurrence of the separator at or after `from`, or `None` when there is none. |
| PipeNames.JoinSplit | abletonosc/track.py:93 | Joining the parts of a split with the separator gives back the name. |
| PipeNames.SplitPartsHaveNoSeparator | abletonosc/track.py:93 | No part of a split contains the separator. |
| PipeNames.SplitIsProperExactlyWithSeparator | abletonosc/track.py:91-95 | A name splits into more than one part exactly when it contains the separator. |
| PipeNames.SplitPipesRoundTrip | abletonosc/track.py:91-101 | What a name is sent as joins back to the name and contains no separator. It is the name alone exactly when the name has no separator. |
| PipeNames.SplitAllWithoutSeparators | abletonosc/track.py:115-122 | Names without the separator pass through unchanged. |
| PipeNames.SplitAllLength | abletonosc/track.py:115-122 | Expanding a list of names never yields fewer entries than names. |
| PipeNames.JoinSplitAll | abletonosc/device.py:192-199 | Joining the expanded list with the separator gives the names joined with the separator: no text is lost or reordered. |
| PipeNames.AppendEach | abletonosc/device.py:196-197 | The inner append loop adds the parts at the end, in order. |
| PipeNames.SplitNames | abletonosc/device.py:192-199 | The append loop over the names produces `SplitAll(names)`. |
| TrackHandler.FanOut | abletonosc/track.py:20-29 | The number of indices visited stays within the index list. |
| TrackHandler.FanOutStopsAtFirstAnswer | abletonosc/track.py:20-29 | The loop stops at the first index whose handler returns something or raises, and answers with that reply prefixed by the index. Every earlier handler returned `None`. With no answer, every index was visited and nothing is sent. |
| TrackHandler.FanOutAllSilent | abletonosc/track.py:20-29 | If every handler returns `None`, every index is visited and no reply is sent. |
| TrackHandler.TrackCallback | abletonosc/track.py:14-29 | The loop's reply and the number of tracks it visits are those of `FanOut` over the expanded indices. |
| TrackHandler.WildcardAddressesRegularTracks | abletonosc/track.py:15-16 | `*` expands to `0 .. len(tracks)-1`, and each of these indices resolves to that regular track. |
| TrackHandler.WildcardRunsSilentHandlerOnEveryTrack | abletonosc/track.py:15-29 | A handler returning `None` on every regular track is run on all of them, and no reply is sent. |
| TrackHandler.WildcardStopsAtFirstReply | abletonosc/track.py:20-29 | If the first track's handler answers, the wildcard request replies with that answer prefixed by `0`, and visits no other track. |
| TrackHandler.NumDevicesRacksIncluded | abletonosc/track.py:177-179 | `num_devices` counts every node of the device forest: racks and everything inside them. |
| TrackHandler.TextsOfTexts | abletonosc/track.py:93-95 | A list of names sent as text fields is read back as the same names. |
| TrackHandler.NameFieldDecodes | abletonosc/track.py:91-101 | A client reads the name back from its field, whether it is a list of parts or a quoted string. A list always has at least two parts. |
| TrackHandler.ReturnTrackName | abletonosc/track.py:86-101 | The reply echoes the index, then the return track's name: a list of its parts when it contains `" | "`, otherwise the name in single quotes. That field decodes to the name. An index outside the return tracks raises IndexError. |
| TrackHandler.ReturnTrackDevicesName | abletonosc/track.py:111-124 | The reply holds the flattened devices' names, with separators expanded. When no name has the separator, it holds exactly the names. A bad index raises IndexError. |
| TrackHandler.TrackDeviceNamesOfChains | abletonosc/track.py:332-345 | A bad flat index raises IndexError, and a plain device raises AttributeError. For a rack, the reply is the index and `[chain names expanded]`. |
| TrackHandler.SelectedDevice | abletonosc/track.py:384-391 | The pair returned holds the first non-negative positions of the selected track in all tracks and of the selected device in that track's flat list, and resolves back to both. IndexError is raised exactly when either cannot be found. |
| Routing.DisplayNames | abletonosc/track.py:416-419 | One display name per available entry, in order. |
| Routing.FindByDisplayName | abletonosc/track.py:424-427 | The search loop finds the first entry with the requested display name, or nothing. |
| Routing.EarliestEntryWins | abletonosc/track.py:424-427 | When two entries share the name, the earlier one (or one before it) is chosen. |
| Routing.TrackRouting.SetOutputRoutingType | abletonosc/track.py:422-428 | A warning is logged exactly when no entry has the name, and then nothing changes. Otherwise the output type becomes the first entry with that name. The other routing fields are unchanged. |
| Routing.TrackRouting.SetOutputRoutingChannel | abletonosc/track.py:431-437 | As above, for the output channel. |
| Routing.TrackRouting.SetInputRoutingType | abletonosc/track.py:455-461 | As above, for the input type. |
| Routing.TrackRouting.SetInputRoutingChannel | abletonosc/track.py:464-470 | As above, for the input channel. |
| DeviceHandler.DeviceRequest | abletonosc/device.py:53-68 | A bad track or flat device index raises IndexError. Otherwise the handler runs on the addressed device: `None` gives no reply, an exception passes through, and a reply is prefixed with `(track_index, device_index)`. |
| DeviceHandler.DeviceCallback | abletonosc/device.py:54-68 | The callback, built on the original flattening loop, answers as `DeviceRequest`. |
| DeviceHandler.TopLevelDeviceAddress | abletonosc/device.py:55-57 | A top-level device is addressed by its offset in the flat list, which counts the rack contents before it, not by its position in `track.devices`. |
| DeviceHandler.NestedDeviceAddress | abletonosc/device.py:25-44 | On `[A, B{[C], [D{[E]}]}]`, index 3 addresses the nested rack D and `-1` addresses E. Index 5 raises. |
| DeviceHandler.Column | abletonosc/device.py:103-116 | One entry per parameter: entry `k` is the field of parameter `k`. |
| DeviceHandler.ParameterListsMatchNumParameters | abletonosc/device.py:100-116 | Every parameter list getter returns `num_parameters` entries, with entry `k` describing parameter `k`. |
| DeviceHandler.ParameterValue | abletonosc/device.py:133-138 | Returns the index as sent and the parameter's value. IndexError is raised exactly when the index is outside the list. |
| DeviceHandler.ParameterValueString | abletonosc/device.py:141-143 | Returns the index as sent and the host's text for the current value. IndexError is raised exactly when the index is outside the list. |
| DeviceHandler.ParameterName | abletonosc/device.py:181-183 | Returns the index as sent and the parameter's name. IndexError is raised exactly when the index is outside the list. |
| DeviceHandler.SetParametersValue | abletonosc/device.py:118-120 | `values[k]` is written into parameter `k` for every `k` the values reach, and the later parameters are unchanged. With more values than parameters, the writes that fit are kept and IndexError is raised. |
| DeviceHandler.SetParametersThenGet | abletonosc/device.py:118-120 | After a bulk write, the value list reads back the written values, then the old values. Names, minima and maxima are unchanged. |
| DeviceHandler.SetParameterValue | abletonosc/device.py:176-179 | Only the parameter at the (possibly negative) index changes, and only its value. A bad index raises IndexError and changes nothing. |
| DeviceHandler.SetParameterThenGet | abletonosc/device.py:176-179 | After a single write, reading the value at the same index gives the written value, the value string is the host's text for the new value, and the name is unchanged. |
| DeviceHandler.SingleGettersMatchLists | abletonosc/device.py:100-183 | At a valid index, the single name and value getters send the list getters' entry at that index, counted from the end when negative. |
| DeviceHandler.NamesOfChains | abletonosc/device.py:188-204 | A device without chains gives `[[]]`. A rack gives `[[chain names in chain order, separators expanded]]`. |
| DeviceHandler.NamesOfChainsRoundTrip | abletonosc/device.py:188-201 | The entries join back to the chain names joined with the separator. Without separators, the entries are exactly the chain names. |
| Listeners.RemoveFirst | abletonosc/track.py:516 | Removing a listener takes one occurrence off the list, and leaves the list unchanged when the listener is not there. |
| Listeners.RemoveKeepsOneListenerEach | abletonosc/track.py:513-517 | After a removal, every remaining key still has exactly one host listener, and the removed callback is no longer a listener. |
| Listeners.RemoveKeepsNoStrays | abletonosc/track.py:513-517 | After a removal, every host listener is still the registered callback of its key. |
| Listeners.StopListenOutcome | abletonosc/track.py:510-519 | Stop removes exactly when the key is registered with a callback on this object, and only warns exactly when the key is not registered. After a removal the key and its listener are gone. Otherwise nothing changes. The invariant is kept. |
| Listeners.AddKeepsOneListenerEach | abletonosc/track.py:503-504 | Adding and recording a new callback gives its key exactly one host listener, and keeps every other key's. |
| Listeners.AddKeepsNoStrays | abletonosc/track.py:503-504 | Adding and recording a new callback leaves no host listener unregistered. |
| Listeners.AddListenerKeepsConsistent | abletonosc/track.py:503-504 | Adding and recording a new callback under a free key keeps the invariant. |
| Listeners.StartListenRaises | abletonosc/track.py:497-499 | Start fails exactly when the host raises on the stop it begins with, and then nothing changes. |
| Listeners.StartListenCallbacks | abletonosc/track.py:497-504 | After a successful start, the registered callbacks are the old ones with the key mapped to the new callback; no other key is added or removed. |
| Listeners.StartListenReplaces | abletonosc/track.py:489-508 | After a successful start, the key's only host listener is the new callback, and the previous callback was removed. Other keys are unchanged, the replies of the first run were sent, and the invariant is kept. |
| Listeners.StartTwiceKeepsOneListener | abletonosc/track.py:497-508 | Starting the same listener twice leaves one host listener, the second callback, and the client got both first runs. |
| Listeners.ListenerRegistry.Stop | abletonosc/track.py:510-519 | The in-place stop performs exactly the `StopListen` transition and keeps the one-listener-per-key invariant. |
| Listeners.ListenerRegistry.Start | abletonosc/track.py:497-508 | The in-place start performs exactly the `StartListen` transition and keeps the one-listener-per-key invariant. |
| Listeners.ListenerRegistry.Register | abletonosc/track.py:503-508 | Adding, recording and running a new callback under a free key is the `AddCallback` transition, and it keeps the invariant. |
| Listeners.SameListenerKey | abletonosc/track.py:497 | Two requests name the same listener exactly when the properties are equal and the argument tuples are equal element by element under Python's `==`. |
| Listeners.FloatAndIntArgumentsShareKey | abletonosc/device.py:156 | `(0.0, 1.0, 2)` and `(False, True, 2)` name the same parameter listener as `(0, 1, 2)`; `(0.5, 1, 2)` does not. |
| Listeners.ListenerRegistry.StartMixerListen | abletonosc/track.py:489-508 | A start under the key of `(prop, params)` whose callback sends `params` and the value to `/live/track/get/<prop>`. |
| Listeners.ListenerRegistry.StopMixerListen | abletonosc/track.py:510-519 | A stop under the key of `(prop, params)`. |
| Listeners.ListenerRegistry.StartParameterListen | abletonosc/device.py:145-164 | When `device.parameters[params[2]]` raises (too short `params`, an index that is neither an `int` nor a `bool`, an index outside the list), the error is raised and nothing changes. Otherwise it is a start on that parameter under the key of `('device_parameter_value', params)`, whose first run sends the value reply, then the value-string reply. The invariant is kept. |
| Listeners.ListenerRegistry.StopParameterListen | abletonosc/device.py:166-174 | An unregistered key only warns and changes nothing. Otherwise a failing parameter lookup changes nothing, and a successful one gives the stop on that parameter. The invariant is kept. |
| Listeners.ParameterTarget | abletonosc/device.py:161 | `device.parameters[params[2]]` finds the parameter at that Python index exactly when `params` has a third entry that is an `int` or `bool` within `±` the parameter count. Otherwise it raises TypeError for any other kind of entry (a `float` included) and IndexError for the rest. |

## Left out

- Rack detection. The code recognises a rack by the text of its Python
  type: an exact match in `track.py:257`, a substring test in
  `track.py:275/281` and `device.py:10/30/37`. The model uses the `Rack`
  variant instead, so it does not capture the cases where the exact and
  substring tests disagree.
- OSC transport. Handler registration, `osc_server.send` and logging are not
  modelled. A sent message is recorded in `Registry.sent`, and a warning is
  reported as a `NotFound` or `warned` result.
- Float-to-int coercion of the track and device indices (`int(params[0])`,
  `int(params[1])`). These indices are `int` in the model. The raw arguments
  still form the listener keys, where they compare as Python's `==` does.
- Listener keys holding a list argument. Python cannot hash such a tuple and
  raises TypeError; the model compares such keys structurally.
- Argument-count errors. Unpacking too few or too many message arguments is
  not modelled.
- Host behaviour, beyond the few fields modelled:
  - `str_for_value` is a function parameter;
  - when a listener fires later is not modelled; only its first run is;
  - range checks on assigned parameter values are not modelled;
  - `remove_value_listener` is assumed to raise when the callback is not
    among the object's listeners, which gives `HostRaised`/`Raised(HostError)`;
  - `color`, `type`, `class_name`, clips, sends and meters are not modelled.
- Handlers that depend on `canonical_parent` or on type-name strings:
  `names_of_devices_in_chain`, `location`, `is_grouped` and `chain_name`
  (`track.py:319-381`).
- Handlers registered twice. `num_devices`, `parameters/name` and
  `names_of_chains` each have two registrations, and which one wins depends
  on the dispatcher, which is not part of this model. Each handler is
  modelled on its own.
- `_get_property`, `_start_listen` and the other generic property handlers.
  They live in `handler.py`, which is not part of this model.
- Routing getters. Only the list of display names (`DisplayNames`) is
  modelled; the getters of the current routing values are one-line field
  reads.
- The debugging `print` calls in `device.py:9` and `device.py:36`. They only
  write the type of each device to the host's console.
- The stop-listen warning text in `device.py:174`. It formats the enclosing
  loop's `prop` rather than `'value'`. Only the fact of the warning is
  modelled.
- Listener identity. A callback stands for a new closure and carries the
  key and object it captures. The model does not capture closures that
  compare equal for any other reason.
- TrackHandler.FanOut: its own contract only bounds the visit count. What
  the fan-out answers is stated by `FanOutStopsAtFirstAnswer` and
  `FanOutAllSilent`.
