/**
 * Device requests: a (track index, device index) pair is resolved through
 * the track's flattened device list, the handler runs on that device, and a
 * reply is prefixed with both indices. The handlers read a device's
 * parameters, write parameter values in place and list a rack's chain names.
 */
module DeviceHandler {
  import opened Values
  import opened LiveSet
  import opened DeviceTree
  import opened PipeNames

  // ---------------------------------------------------------------------
  // Device addressing
  // ---------------------------------------------------------------------

  /**
   * The arguments the handler receives: the whole message, ids included,
   * when asked for; otherwise what follows the two indices.
   */
  function DeviceArgs(trackIndex: int, deviceIndex: int, extra: seq<Value>, includeIds: bool): seq<Value>
  {
    if includeIds then [Int(trackIndex), Int(deviceIndex)] + extra else extra
  }

  /**
   * A device request as a value: the track is resolved in
   * `tracks + return_tracks + (master,)`, the device in that track's
   * flattened list; either lookup may raise IndexError. A reply is prefixed
   * with the two indices as sent; `None` gives no reply; an exception of
   * the handler passes through.
   */
  function DeviceRequest(song: Song, trackIndex: int, deviceIndex: int, extra: seq<Value>,
                         handler: (Device, seq<Value>) -> Outcome, includeIds: bool): (r: Outcome)
    ensures ResolveTrack(song, trackIndex).None? ==> r == Raised(IndexError)
    ensures ResolveTrack(song, trackIndex).Some? &&
            ResolveDevice(ResolveTrack(song, trackIndex).value, deviceIndex).None? ==>
              r == Raised(IndexError)
    ensures ResolveTrack(song, trackIndex).Some? &&
            ResolveDevice(ResolveTrack(song, trackIndex).value, deviceIndex).Some? ==>
              var out := handler(ResolveDevice(ResolveTrack(song, trackIndex).value, deviceIndex).value,
                                 DeviceArgs(trackIndex, deviceIndex, extra, includeIds));
              (r.Silent? <==> out.Silent?) &&
              (out.Raised? ==> r == out) &&
              (out.Returned? ==> r.Returned? && |r.values| == 2 + |out.values| &&
                                 r.values[..2] == [Int(trackIndex), Int(deviceIndex)] &&
                                 r.values[2..] == out.values)
  {
    match ResolveTrack(song, trackIndex)
    case None => Raised(IndexError)
    case Some(track) =>
      match ResolveDevice(track, deviceIndex)
      case None => Raised(IndexError)
      case Some(device) =>
        match handler(device, DeviceArgs(trackIndex, deviceIndex, extra, includeIds))
        case Returned(values) => Returned([Int(trackIndex), Int(deviceIndex)] + values)
        case other => other
  }

  /** `device_callback`: the flat list is built with the original loop, then indexed. */
  method DeviceCallback(song: Song, trackIndex: int, deviceIndex: int, extra: seq<Value>,
                        handler: (Device, seq<Value>) -> Outcome, includeIds: bool)
    returns (r: Outcome)
    ensures r == DeviceRequest(song, trackIndex, deviceIndex, extra, handler, includeIds)
  {
    var track := ResolveTrack(song, trackIndex);
    if track.None? {
      return Raised(IndexError);
    }
    var fullData := GetAllDevices(track.value);
    var k := PyIndex(|fullData|, deviceIndex);
    if k.None? {
      return Raised(IndexError);
    }
    var rv := handler(fullData[k.value], DeviceArgs(trackIndex, deviceIndex, extra, includeIds));
    if rv.Returned? {
      r := Returned([Int(trackIndex), Int(deviceIndex)] + rv.values);
    } else {
      r := rv;
    }
  }

  /**
   * A top-level device is addressed by its offset in the flat list, which
   * counts every device inside the racks before it: the handler runs on
   * that device.
   */
  lemma TopLevelDeviceAddress(song: Song, trackIndex: int, i: nat, extra: seq<Value>,
                              handler: (Device, seq<Value>) -> Outcome, includeIds: bool)
    requires ResolveTrack(song, trackIndex).Some?
    requires i < |ResolveTrack(song, trackIndex).value.devices|
    ensures var track := ResolveTrack(song, trackIndex).value;
            var d := Offset(track.devices, i);
            ResolveDevice(track, d) == Some(track.devices[i]) &&
            (handler(track.devices[i], DeviceArgs(trackIndex, d, extra, includeIds)).Silent? ==>
               DeviceRequest(song, trackIndex, d, extra, handler, includeIds) == Silent)
  {
    var track := ResolveTrack(song, trackIndex).value;
    TopLevelPlacement(track.devices, i);
  }

  /**
   * On the track `[A, B{[C], [D{[E]}]}]` (B and D racks) the device index
   * 3 addresses the nested rack D and index -1 the innermost device E,
   * although the track itself holds only two devices.
   */
  lemma NestedDeviceAddress(song: Song, a: DeviceInfo, b: DeviceInfo, c: DeviceInfo, d: DeviceInfo, e: DeviceInfo)
    requires |song.tracks| > 0
    requires song.tracks[0].devices ==
               [Leaf(a), Rack(b, [Chain("chain1", [Leaf(c)]), Chain("chain2", [Rack(d, [Chain("chain3", [Leaf(e)])])])])]
    ensures ResolveDevice(song.tracks[0], 3) == Some(Rack(d, [Chain("chain3", [Leaf(e)])]))
    ensures ResolveDevice(song.tracks[0], -1) == Some(Leaf(e))
    ensures ResolveDevice(song.tracks[0], 5).None?
  {
    WorkedExample(a, b, c, d, e);
  }

  // ---------------------------------------------------------------------
  // Parameter lists
  // ---------------------------------------------------------------------

  /** One field of every parameter, in parameter order. */
  function Column(ps: seq<Parameter>, field: Parameter -> Value): (r: seq<Value>)
    ensures |r| == |ps|
    ensures forall k :: 0 <= k < |ps| ==> r[k] == field(ps[k])
  {
    if ps == [] then [] else [field(ps[0])] + Column(ps[1..], field)
  }

  /** The fields of a parameter as reply values. */
  function NameOf(p: Parameter): Value { Text(p.name) }
  function ValueOf(p: Parameter): Value { Real(p.value) }
  function MinOf(p: Parameter): Value { Real(p.min) }
  function MaxOf(p: Parameter): Value { Real(p.max) }
  function IsQuantizedOf(p: Parameter): Value { Bool(p.isQuantized) }

  /** `get/num_parameters`. */
  function NumParameters(device: Device): Outcome
  {
    Returned([Int(|device.info.parameters|)])
  }

  /** `get/parameters/name`. */
  function ParametersName(device: Device): Outcome
  {
    Returned(Column(device.info.parameters, NameOf))
  }

  /** `get/parameters/value`. */
  function ParametersValue(device: Device): Outcome
  {
    Returned(Column(device.info.parameters, ValueOf))
  }

  /** `get/parameters/min`. */
  function ParametersMin(device: Device): Outcome
  {
    Returned(Column(device.info.parameters, MinOf))
  }

  /** `get/parameters/max`. */
  function ParametersMax(device: Device): Outcome
  {
    Returned(Column(device.info.parameters, MaxOf))
  }

  /** `get/parameters/is_quantized`. */
  function ParametersIsQuantized(device: Device): Outcome
  {
    Returned(Column(device.info.parameters, IsQuantizedOf))
  }

  /**
   * Every parameter list has one entry per parameter, as many as
   * `num_parameters` reports, and entry k describes parameter k.
   */
  lemma ParameterListsMatchNumParameters(device: Device)
    ensures var n := NumParameters(device).values[0].i;
            var ps := device.info.parameters;
            |ParametersName(device).values| == n &&
            |ParametersValue(device).values| == n &&
            |ParametersMin(device).values| == n &&
            |ParametersMax(device).values| == n &&
            |ParametersIsQuantized(device).values| == n &&
            forall k :: 0 <= k < n ==>
              ParametersName(device).values[k] == Text(ps[k].name) &&
              ParametersValue(device).values[k] == Real(ps[k].value) &&
              ParametersMin(device).values[k] == Real(ps[k].min) &&
              ParametersMax(device).values[k] == Real(ps[k].max) &&
              ParametersIsQuantized(device).values[k] == Bool(ps[k].isQuantized)
  {
  }

  // ---------------------------------------------------------------------
  // Single parameters
  // ---------------------------------------------------------------------

  /** `get/parameter/value`: the index as sent, then the value; IndexError outside the list. */
  function ParameterValue(ps: seq<Parameter>, index: int): (r: Outcome)
    ensures PyIndex(|ps|, index).None? <==> r == Raised(IndexError)
    ensures PyIndex(|ps|, index).Some? ==>
              r == Returned([Int(index), Real(ps[PyIndex(|ps|, index).value].value)])
  {
    match PyIndex(|ps|, index)
    case None => Raised(IndexError)
    case Some(k) => Returned([Int(index), Real(ps[k].value)])
  }

  /**
   * `get/parameter/value_string`: the index as sent, then the host's text
   * for the current value (`str_for_value`, given here as a parameter).
   */
  function ParameterValueString(ps: seq<Parameter>, index: int, strForValue: (Parameter, real) -> string): (r: Outcome)
    ensures PyIndex(|ps|, index).None? <==> r == Raised(IndexError)
    ensures PyIndex(|ps|, index).Some? ==>
              var p := ps[PyIndex(|ps|, index).value];
              r == Returned([Int(index), Text(strForValue(p, p.value))])
  {
    match PyIndex(|ps|, index)
    case None => Raised(IndexError)
    case Some(k) => Returned([Int(index), Text(strForValue(ps[k], ps[k].value))])
  }

  /** `get/parameter/name`: the index as sent, then the parameter's name. */
  function ParameterName(ps: seq<Parameter>, index: int): (r: Outcome)
    ensures PyIndex(|ps|, index).None? <==> r == Raised(IndexError)
    ensures PyIndex(|ps|, index).Some? ==>
              r == Returned([Int(index), Text(ps[PyIndex(|ps|, index).value].name)])
  {
    match PyIndex(|ps|, index)
    case None => Raised(IndexError)
    case Some(k) => Returned([Int(index), Text(ps[k].name)])
  }

  // ---------------------------------------------------------------------
  // Writing parameter values in place
  // ---------------------------------------------------------------------

  /** Parameter k takes `values[k]` for every k the values reach; the others keep theirs. */
  function WithValues(ps: seq<Parameter>, values: seq<real>): seq<Parameter>
  {
    seq(|ps|, k requires 0 <= k < |ps| => if k < |values| then ps[k].(value := values[k]) else ps[k])
  }

  /**
   * `set/parameters/value`: `values[k]` is written into parameter k, in
   * order. With more values than parameters, the first writes stay done
   * and the next one raises IndexError.
   */
  method SetParametersValue(ps: array<Parameter>, values: seq<real>) returns (r: Outcome)
    modifies ps
    ensures ps[..] == WithValues(old(ps[..]), values)
    ensures r == if |values| > ps.Length then Raised(IndexError) else Silent
  {
    var i := 0;
    while i < |values|
      invariant 0 <= i <= |values|
      invariant i <= ps.Length
      invariant ps[..] == WithValues(old(ps[..]), values[..i])
    {
      if i >= ps.Length {
        assert WithValues(old(ps[..]), values[..i]) == WithValues(old(ps[..]), values);
        return Raised(IndexError);
      }
      ps[i] := ps[i].(value := values[i]);
      i := i + 1;
    }
    assert values[..i] == values;
    r := Silent;
  }

  /**
   * Reading the values back after a bulk write gives the written values
   * for the parameters they reach and the old values after them; names,
   * ranges and quantization are untouched.
   */
  lemma SetParametersThenGet(ps: seq<Parameter>, values: seq<real>)
    ensures var qs := WithValues(ps, values);
            |qs| == |ps| &&
            (forall k :: 0 <= k < |ps| && k < |values| ==> Column(qs, ValueOf)[k] == Real(values[k])) &&
            (forall k :: |values| <= k < |ps| ==> Column(qs, ValueOf)[k] == Column(ps, ValueOf)[k]) &&
            Column(qs, NameOf) == Column(ps, NameOf) &&
            Column(qs, MinOf) == Column(ps, MinOf) &&
            Column(qs, MaxOf) == Column(ps, MaxOf)
  {
    var qs := WithValues(ps, values);
    assert forall k :: 0 <= k < |ps| ==> qs[k].name == ps[k].name && qs[k].min == ps[k].min && qs[k].max == ps[k].max;
  }

  /**
   * `set/parameter/value`: the parameter at the (possibly negative) index
   * takes the value; every other parameter is unchanged. An index outside
   * the list raises IndexError and changes nothing.
   */
  method SetParameterValue(ps: array<Parameter>, index: int, value: real) returns (r: Outcome)
    modifies ps
    ensures PyIndex(ps.Length, index).None? ==> r == Raised(IndexError) && ps[..] == old(ps[..])
    ensures PyIndex(ps.Length, index).Some? ==>
              r == Silent &&
              ps[..] == old(ps[..])[PyIndex(ps.Length, index).value :=
                                      old(ps[PyIndex(ps.Length, index).value]).(value := value)]
  {
    var k := PyIndex(ps.Length, index);
    if k.None? {
      return Raised(IndexError);
    }
    ps[k.value] := ps[k.value].(value := value);
    r := Silent;
  }

  /**
   * After a single write, `get/parameter/value` at the same index reads the
   * value back, `get/parameter/value_string` gives the host's text for the
   * new value, and the name is unchanged.
   */
  lemma SetParameterThenGet(ps: seq<Parameter>, index: int, value: real, strForValue: (Parameter, real) -> string)
    requires PyIndex(|ps|, index).Some?
    ensures var k := PyIndex(|ps|, index).value;
            var qs := ps[k := ps[k].(value := value)];
            ParameterValue(qs, index) == Returned([Int(index), Real(value)]) &&
            ParameterValueString(qs, index, strForValue) == Returned([Int(index), Text(strForValue(qs[k], value))]) &&
            ParameterName(qs, index) == ParameterName(ps, index)
  {
  }

  /**
   * The single-parameter getters agree with the list getters: at an index
   * inside the list, `get/parameter/name` and `get/parameter/value` send the
   * entry of `get/parameters/name` and `get/parameters/value` that the
   * index addresses (counting from the end when negative).
   */
  lemma SingleGettersMatchLists(device: Device, index: int)
    requires PyIndex(|device.info.parameters|, index).Some?
    ensures var ps := device.info.parameters;
            var k := if index >= 0 then index else |ps| + index;
            0 <= k < |ParametersName(device).values| &&
            ParameterName(ps, index).values[1] == ParametersName(device).values[k] &&
            ParameterValue(ps, index).values[1] == ParametersValue(device).values[k]
  {
    var ps := device.info.parameters;
    var k := PyIndex(|ps|, index).value;
    assert ParametersName(device).values[k] == NameOf(ps[k]);
    assert ParametersValue(device).values[k] == ValueOf(ps[k]);
  }

  // ---------------------------------------------------------------------
  // Chain names
  // ---------------------------------------------------------------------

  /**
   * `get/names_of_chains`: `[[]]` for a device without chains; for a rack,
   * one list holding the chain names in chain order, each name with the
   * separator replaced by its parts.
   */
  method NamesOfChains(device: Device) returns (r: Outcome)
    ensures device.Leaf? ==> r == Returned([List([])])
    ensures device.Rack? ==>
              r == Returned([List([List(Texts(SplitAll(ChainNames(device.chains))))])])
  {
    if device.Leaf? {
      return Returned([List([])]);
    }
    var chainsList := SplitNames(ChainNames(device.chains));
    r := Returned([List([List(Texts(chainsList))])]);
  }

  /**
   * What the rack's chain list carries: joining its entries with the
   * separator gives the chain names joined with the separator, and when no
   * chain name has the separator the entries are exactly the chain names.
   */
  lemma NamesOfChainsRoundTrip(chains: seq<Chain>)
    ensures Join(SplitAll(ChainNames(chains))) == Join(ChainNames(chains))
    ensures (forall k :: 0 <= k < |chains| ==> !HasSeparator(chains[k].name)) ==>
              SplitAll(ChainNames(chains)) == ChainNames(chains)
  {
    JoinSplitAll(ChainNames(chains));
    if forall k :: 0 <= k < |chains| ==> !HasSeparator(chains[k].name) {
      SplitAllWithoutSeparators(ChainNames(chains));
    }
  }
}
