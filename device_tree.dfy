/**
 * The device-tree flattener. Every per-device request addresses a device by
 * its position in this flat list, so the order it produces is the addressing
 * scheme of the whole device API.
 *
 * `Flatten` is the specification: a pre-order walk in which a rack is
 * followed by the flattening of its chains, chain by chain and device by
 * device. `GetAllDevices` and `GetAllSubRackDevices` mirror the original
 * loops, including the scratch list that is cleared for every rack, and are
 * proved equal to it.
 */
module DeviceTree {
  import opened Values
  import opened LiveSet

  // ---------------------------------------------------------------------
  // Specification
  // ---------------------------------------------------------------------

  /** The pre-order flattening of a sequence of sibling devices. */
  function Flatten(ds: seq<Device>): seq<Device>
    decreases ds
  {
    if ds == [] then [] else Emit(ds[0]) + Flatten(ds[1..])
  }

  /** What one device contributes: itself, then (for a rack) everything in its chains. */
  function Emit(d: Device): seq<Device>
    decreases d
  {
    match d
    case Leaf(_) => [d]
    case Rack(_, chains) => [d] + FlattenChains(chains)
  }

  /** The devices of all chains, in chain order, each chain flattened in turn. */
  function FlattenChains(cs: seq<Chain>): seq<Device>
    decreases cs
  {
    if cs == [] then [] else Flatten(cs[0].devices) + FlattenChains(cs[1..])
  }

  /** Number of nodes in a device's subtree: 1 for a device, plus its chains' devices for a rack. */
  function Size(d: Device): nat
    decreases d
  {
    match d
    case Leaf(_) => 1
    case Rack(_, chains) => 1 + SizeChains(chains)
  }

  function SizeAll(ds: seq<Device>): nat
    decreases ds
  {
    if ds == [] then 0 else Size(ds[0]) + SizeAll(ds[1..])
  }

  function SizeChains(cs: seq<Chain>): nat
    decreases cs
  {
    if cs == [] then 0 else SizeAll(cs[0].devices) + SizeChains(cs[1..])
  }

  /** Every node of a device forest, counted with multiplicity, in no particular order. */
  function Nodes(d: Device): multiset<Device>
    decreases d
  {
    match d
    case Leaf(_) => multiset{d}
    case Rack(_, chains) => multiset{d} + NodesChains(chains)
  }

  function NodesAll(ds: seq<Device>): multiset<Device>
    decreases ds
  {
    if ds == [] then multiset{} else Nodes(ds[0]) + NodesAll(ds[1..])
  }

  function NodesChains(cs: seq<Chain>): multiset<Device>
    decreases cs
  {
    if cs == [] then multiset{} else NodesAll(cs[0].devices) + NodesChains(cs[1..])
  }

  /** The flat position of the top-level device `ds[i]`: the sizes of the devices before it. */
  function Offset(ds: seq<Device>, i: nat): nat
    requires i <= |ds|
  {
    SizeAll(ds[..i])
  }

  /** The flat position, within a rack's flattened chains, where chain `cs[i]` starts. */
  function ChainOffset(cs: seq<Chain>, i: nat): nat
    requires i <= |cs|
  {
    SizeChains(cs[..i])
  }

  /** The device a flat index addresses on a track, or `None` for IndexError. */
  function ResolveDevice(track: Track, index: int): (r: Option<Device>)
    ensures r.Some? <==> 0 <= |Flatten(track.devices)| + index && index < |Flatten(track.devices)|
    ensures r.Some? ==> r.value in Flatten(track.devices)
    ensures r.Some? ==>
              r.value == Flatten(track.devices)[if index >= 0 then index else |Flatten(track.devices)| + index]
  {
    var flat := Flatten(track.devices);
    match PyIndex(|flat|, index)
    case None => None
    case Some(k) => Some(flat[k])
  }

  // ---------------------------------------------------------------------
  // Properties of the flattening
  // ---------------------------------------------------------------------

  /** Flattening distributes over concatenation of sibling lists. */
  lemma {:induction false} FlattenAppend(a: seq<Device>, b: seq<Device>)
    ensures Flatten(a + b) == Flatten(a) + Flatten(b)
    decreases a
  {
    if a == [] {
      assert a + b == b;
    } else {
      assert (a + b)[0] == a[0];
      assert (a + b)[1..] == a[1..] + b;
      FlattenAppend(a[1..], b);
    }
  }

  /** Flattening chains distributes over concatenation of chain lists. */
  lemma {:induction false} FlattenChainsAppend(a: seq<Chain>, b: seq<Chain>)
    ensures FlattenChains(a + b) == FlattenChains(a) + FlattenChains(b)
    decreases a
  {
    if a == [] {
      assert a + b == b;
    } else {
      assert (a + b)[0] == a[0];
      assert (a + b)[1..] == a[1..] + b;
      FlattenChainsAppend(a[1..], b);
    }
  }

  /** One more sibling adds its own contribution at the end. */
  lemma FlattenSnoc(ds: seq<Device>, i: nat)
    requires i < |ds|
    ensures Flatten(ds[..i + 1]) == Flatten(ds[..i]) + Emit(ds[i])
  {
    assert ds[..i + 1] == ds[..i] + [ds[i]];
    FlattenAppend(ds[..i], [ds[i]]);
    assert [ds[i]][1..] == [];
  }

  /** One more chain adds its flattened devices at the end. */
  lemma FlattenChainsSnoc(cs: seq<Chain>, i: nat)
    requires i < |cs|
    ensures FlattenChains(cs[..i + 1]) == FlattenChains(cs[..i]) + Flatten(cs[i].devices)
  {
    assert cs[..i + 1] == cs[..i] + [cs[i]];
    FlattenChainsAppend(cs[..i], [cs[i]]);
    assert [cs[i]][1..] == [];
  }

  /** The flat list is as long as the forest has nodes. */
  lemma {:induction false} FlattenLength(ds: seq<Device>)
    ensures |Flatten(ds)| == SizeAll(ds)
    decreases ds
  {
    if ds != [] {
      EmitLength(ds[0]);
      FlattenLength(ds[1..]);
    }
  }

  /** A device contributes as many entries as its subtree has nodes. */
  lemma {:induction false} EmitLength(d: Device)
    ensures |Emit(d)| == Size(d)
    decreases d
  {
    if d.Rack? {
      FlattenChainsLength(d.chains);
    }
  }

  lemma {:induction false} FlattenChainsLength(cs: seq<Chain>)
    ensures |FlattenChains(cs)| == SizeChains(cs)
    decreases cs
  {
    if cs != [] {
      FlattenLength(cs[0].devices);
      FlattenChainsLength(cs[1..]);
    }
  }

  /** Every node of the forest occurs in the flat list exactly as often as in the forest. */
  lemma {:induction false} FlattenNodes(ds: seq<Device>)
    ensures multiset(Flatten(ds)) == NodesAll(ds)
    decreases ds
  {
    if ds != [] {
      EmitNodes(ds[0]);
      FlattenNodes(ds[1..]);
    }
  }

  lemma {:induction false} EmitNodes(d: Device)
    ensures multiset(Emit(d)) == Nodes(d)
    decreases d
  {
    if d.Rack? {
      FlattenChainsNodes(d.chains);
    }
  }

  lemma {:induction false} FlattenChainsNodes(cs: seq<Chain>)
    ensures multiset(FlattenChains(cs)) == NodesChains(cs)
    decreases cs
  {
    if cs != [] {
      FlattenNodes(cs[0].devices);
      FlattenChainsNodes(cs[1..]);
    }
  }

  lemma {:induction false} EmptyChainsFlattenToNothing(cs: seq<Chain>)
    requires forall k :: 0 <= k < |cs| ==> cs[k].devices == []
    ensures FlattenChains(cs) == []
    decreases cs
  {
    if cs != [] {
      EmptyChainsFlattenToNothing(cs[1..]);
    }
  }

  /**
   * A rack with no chains, or whose chains hold no devices, contributes
   * exactly itself.
   */
  lemma RackWithoutChainDevices(d: Device)
    requires d.Rack?
    requires forall k :: 0 <= k < |d.chains| ==> d.chains[k].devices == []
    ensures Emit(d) == [d]
    ensures |Emit(d)| == Size(d) == 1
  {
    EmptyChainsFlattenToNothing(d.chains);
    EmitLength(d);
  }

  /**
   * Pre-order placement: the top-level device `ds[i]` sits at flat position
   * `Offset(ds, i)`, and the `Size(ds[i])` entries from there on are exactly
   * its own contribution (itself, then its chains' devices).
   */
  lemma TopLevelPlacement(ds: seq<Device>, i: nat)
    requires i < |ds|
    ensures Offset(ds, i) + Size(ds[i]) <= |Flatten(ds)|
    ensures Flatten(ds)[Offset(ds, i)] == ds[i]
    ensures Flatten(ds)[Offset(ds, i)..Offset(ds, i) + Size(ds[i])] == Emit(ds[i])
  {
    var before, here, after := ds[..i], [ds[i]], ds[i + 1..];
    assert ds == before + here + after;
    FlattenAppend(before + here, after);
    FlattenAppend(before, here);
    assert Flatten(here) == Emit(ds[i]);
    FlattenLength(before);
    EmitLength(ds[i]);
  }

  /** Top-level devices keep their relative order in the flat list. */
  lemma TopLevelInOrder(ds: seq<Device>, i: nat, j: nat)
    requires i < j <= |ds|
    ensures Offset(ds, i) + Size(ds[i]) <= Offset(ds, j)
  {
    assert ds[..j] == ds[..i] + ds[i..j];
    FlattenAppend(ds[..i], ds[i..j]);
    FlattenLength(ds[..j]);
    FlattenLength(ds[..i]);
    FlattenLength(ds[i..j]);
    assert ds[i..j] == [ds[i]] + ds[i + 1..j];
    FlattenAppend([ds[i]], ds[i + 1..j]);
    assert Flatten([ds[i]]) == Emit(ds[i]);
    EmitLength(ds[i]);
  }

  /**
   * Chain order inside a rack: the devices of chain `cs[i]` occupy the
   * `SizeAll(cs[i].devices)` entries from `ChainOffset(cs, i)` on.
   */
  lemma ChainPlacement(cs: seq<Chain>, i: nat)
    requires i < |cs|
    ensures ChainOffset(cs, i) + SizeAll(cs[i].devices) <= |FlattenChains(cs)|
    ensures FlattenChains(cs)[ChainOffset(cs, i)..ChainOffset(cs, i) + SizeAll(cs[i].devices)]
         == Flatten(cs[i].devices)
  {
    var before, here, after := cs[..i], [cs[i]], cs[i + 1..];
    assert cs == before + here + after;
    FlattenChainsAppend(before + here, after);
    FlattenChainsAppend(before, here);
    assert FlattenChains(here) == Flatten(cs[i].devices);
    FlattenChainsLength(before);
    FlattenLength(cs[i].devices);
  }

  /**
   * The worked example: [EffectA, RackB{[EffectC], [RackD{[EffectE]}]}]
   * flattens to [EffectA, RackB, EffectC, RackD, EffectE].
   */
  lemma WorkedExample(a: DeviceInfo, b: DeviceInfo, c: DeviceInfo, d: DeviceInfo, e: DeviceInfo)
    ensures var rackD := Rack(d, [Chain("chain3", [Leaf(e)])]);
            var rackB := Rack(b, [Chain("chain1", [Leaf(c)]), Chain("chain2", [rackD])]);
            Flatten([Leaf(a), rackB]) == [Leaf(a), rackB, Leaf(c), rackD, Leaf(e)]
  {
    var rackD := Rack(d, [Chain("chain3", [Leaf(e)])]);
    var rackB := Rack(b, [Chain("chain1", [Leaf(c)]), Chain("chain2", [rackD])]);
    assert Flatten([Leaf(e)]) == [Leaf(e)] by { assert [Leaf(e)][1..] == []; }
    assert Flatten([Leaf(c)]) == [Leaf(c)] by { assert [Leaf(c)][1..] == []; }
    assert FlattenChains([Chain("chain3", [Leaf(e)])]) == [Leaf(e)];
    assert Emit(rackD) == [rackD, Leaf(e)];
    assert Flatten([rackD]) == [rackD, Leaf(e)] by { assert [rackD][1..] == []; }
    assert FlattenChains(rackB.chains[1..]) == [rackD, Leaf(e)];
    assert FlattenChains(rackB.chains) == [Leaf(c), rackD, Leaf(e)];
    assert Flatten([rackB]) == [rackB, Leaf(c), rackD, Leaf(e)] by { assert [rackB][1..] == []; }
    assert [Leaf(a), rackB][1..] == [rackB];
  }

  // ---------------------------------------------------------------------
  // The original loops
  // ---------------------------------------------------------------------

  /** A host-side Python list of devices, updated in place. */
  class DeviceList {
    var items: seq<Device>

    constructor ()
      ensures items == []
    {
      items := [];
    }

    method Append(d: Device)
      modifies this
      ensures items == old(items) + [d]
    {
      items := items + [d];
    }

    method Extend(ds: seq<Device>)
      modifies this
      ensures items == old(items) + ds
    {
      items := items + ds;
    }

    method Clear()
      modifies this
      ensures items == []
    {
      items := [];
    }
  }

  /**
   * `{rack: devices}` turned into a list: the rack, then a copy of the
   * devices collected for it.
   */
  function ConvertDictToList(rack: Device, devices: seq<Device>): seq<Device>
  {
    [rack] + devices
  }

  /**
   * One chain's part of the inner loops of `get_all_sub_rack_devices` and
   * `get_all_devices`: each device of the chain is appended (`extend([d])`
   * and `append(d)` do the same) and, when it is a rack, followed by
   * everything below it.
   */
  method CollectChain(chain: Chain, list: DeviceList)
    modifies list
    ensures list.items == old(list.items) + Flatten(chain.devices)
    decreases chain
  {
    var di := 0;
    while di < |chain.devices|
      invariant 0 <= di <= |chain.devices|
      invariant list.items == old(list.items) + Flatten(chain.devices[..di])
    {
      var device := chain.devices[di];
      ghost var before := list.items;
      list.Append(device);
      if device.Rack? {
        var sub := GetAllSubRackDevices(device);
        list.Extend(sub);
      }
      assert list.items == before + Emit(device);
      FlattenSnoc(chain.devices, di);
      di := di + 1;
    }
    assert chain.devices[..di] == chain.devices;
  }

  /** Everything below a rack, recursing into nested racks. */
  method GetAllSubRackDevices(rack: Device) returns (all: seq<Device>)
    requires rack.Rack?
    ensures all == FlattenChains(rack.chains)
    decreases rack
  {
    var acc := new DeviceList();
    var ci := 0;
    while ci < |rack.chains|
      invariant 0 <= ci <= |rack.chains|
      invariant acc.items == FlattenChains(rack.chains[..ci])
    {
      CollectChain(rack.chains[ci], acc);
      FlattenChainsSnoc(rack.chains, ci);
      ci := ci + 1;
    }
    assert rack.chains[..ci] == rack.chains;
    all := acc.items;
  }

  /**
   * The rack branch of `get_all_devices`: the scratch list is cleared, then
   * every chain of the rack is collected into it.
   */
  method CollectRack(rack: Device, devices: DeviceList)
    requires rack.Rack?
    modifies devices
    ensures devices.items == FlattenChains(rack.chains)
  {
    devices.Clear();
    var ci := 0;
    while ci < |rack.chains|
      invariant 0 <= ci <= |rack.chains|
      invariant devices.items == FlattenChains(rack.chains[..ci])
    {
      CollectChain(rack.chains[ci], devices);
      FlattenChainsSnoc(rack.chains, ci);
      ci := ci + 1;
    }
    assert rack.chains[..ci] == rack.chains;
  }

  /**
   * A track's flat device list. One scratch list is reused for every rack
   * and cleared first; what was already emitted is unaffected, because the
   * rack's entries are copied into the result (and collecting a rack may
   * only touch the scratch list).
   */
  method GetAllDevices(track: Track) returns (flat: seq<Device>)
    ensures flat == Flatten(track.devices)
  {
    var full := new DeviceList();
    var deviceList := track.devices;
    var devices := new DeviceList();
    var i := 0;
    while i < |deviceList|
      invariant 0 <= i <= |deviceList|
      invariant full.items == Flatten(deviceList[..i])
      invariant full != devices
    {
      var device := deviceList[i];
      if device.Rack? {
        var rack := device;
        CollectRack(rack, devices);
        assert ConvertDictToList(rack, devices.items) == Emit(rack);
        full.Extend(ConvertDictToList(rack, devices.items));
      } else {
        full.Append(device);
      }
      FlattenSnoc(deviceList, i);
      i := i + 1;
    }
    assert deviceList[..i] == deviceList;
    flat := full.items;
  }
}
