/**
 * Track routing: the output and input routing type and channel of a track
 * are chosen from the track's available entries by display name. The first
 * entry whose display name equals the requested string is assigned; when
 * none does, the track keeps its current value and a warning is logged.
 */
module Routing {
  import opened Values

  /** A routing type or channel offered by the host; `id` stands for its identity. */
  datatype RoutingEntry = RoutingEntry(id: nat, displayName: string)

  /** The display names of a list of entries, in order (what the `available_*` getters reply). */
  function DisplayNames(entries: seq<RoutingEntry>): (r: seq<string>)
    ensures |r| == |entries|
    ensures forall k :: 0 <= k < |entries| ==> r[k] == entries[k].displayName
  {
    if entries == [] then [] else [entries[0].displayName] + DisplayNames(entries[1..])
  }

  /**
   * The search loop of the routing setters: the position of the first entry
   * whose display name is `name`, or `None` when no entry has it.
   */
  method FindByDisplayName(entries: seq<RoutingEntry>, name: string) returns (found: Option<nat>)
    ensures found == FirstIndexOf(DisplayNames(entries), name)
  {
    var i := 0;
    while i < |entries|
      invariant 0 <= i <= |entries|
      invariant forall k :: 0 <= k < i ==> entries[k].displayName != name
    {
      if entries[i].displayName == name {
        FirstMatchIsUnique(DisplayNames(entries), name, i);
        return Some(i);
      }
      i := i + 1;
    }
    assert name !in DisplayNames(entries) by {
      forall k | 0 <= k < |entries|
        ensures DisplayNames(entries)[k] != name
      {
      }
    }
    found := None;
  }

  /** A position holding `x` with no `x` before it is the one `FirstIndexOf` finds. */
  lemma FirstMatchIsUnique<T>(s: seq<T>, x: T, i: nat)
    requires i < |s| && s[i] == x
    requires forall k :: 0 <= k < i ==> s[k] != x
    ensures FirstIndexOf(s, x) == Some(i)
  {
    assert x in s;
  }

  /**
   * The routing of one track: the entries the host offers and the four
   * current values. The setters assign a current value by reference to an
   * entry of the matching `available_*` list.
   */
  class TrackRouting {
    var availableOutputTypes: seq<RoutingEntry>
    var availableOutputChannels: seq<RoutingEntry>
    var availableInputTypes: seq<RoutingEntry>
    var availableInputChannels: seq<RoutingEntry>
    var outputType: RoutingEntry
    var outputChannel: RoutingEntry
    var inputType: RoutingEntry
    var inputChannel: RoutingEntry

    constructor(outTypes: seq<RoutingEntry>, outChannels: seq<RoutingEntry>,
                inTypes: seq<RoutingEntry>, inChannels: seq<RoutingEntry>,
                outType: RoutingEntry, outChannel: RoutingEntry,
                inType: RoutingEntry, inChannel: RoutingEntry)
      ensures availableOutputTypes == outTypes && availableOutputChannels == outChannels
      ensures availableInputTypes == inTypes && availableInputChannels == inChannels
      ensures outputType == outType && outputChannel == outChannel
      ensures inputType == inType && inputChannel == inChannel
    {
      availableOutputTypes := outTypes;
      availableOutputChannels := outChannels;
      availableInputTypes := inTypes;
      availableInputChannels := inChannels;
      outputType := outType;
      outputChannel := outChannel;
      inputType := inType;
      inputChannel := inChannel;
    }

    /**
     * `set/output_routing_type`: the first available output type named
     * `name` becomes the output type; with no such entry nothing changes
     * and `warned` reports the logged warning.
     */
    method SetOutputRoutingType(name: string) returns (warned: bool)
      modifies this
      ensures warned <==> name !in DisplayNames(availableOutputTypes)
      ensures !warned ==>
                outputType == availableOutputTypes[FirstIndexOf(DisplayNames(availableOutputTypes), name).value] &&
                outputType.displayName == name
      ensures warned ==> outputType == old(outputType)
      ensures availableOutputTypes == old(availableOutputTypes)
      ensures availableOutputChannels == old(availableOutputChannels)
      ensures availableInputTypes == old(availableInputTypes)
      ensures availableInputChannels == old(availableInputChannels)
      ensures outputChannel == old(outputChannel) && inputType == old(inputType) && inputChannel == old(inputChannel)
    {
      var found := FindByDisplayName(availableOutputTypes, name);
      if found.Some? {
        outputType := availableOutputTypes[found.value];
        return false;
      }
      return true;
    }

    /** `set/output_routing_channel`: as `SetOutputRoutingType`, for the output channel. */
    method SetOutputRoutingChannel(name: string) returns (warned: bool)
      modifies this
      ensures warned <==> name !in DisplayNames(availableOutputChannels)
      ensures !warned ==>
                outputChannel == availableOutputChannels[FirstIndexOf(DisplayNames(availableOutputChannels), name).value] &&
                outputChannel.displayName == name
      ensures warned ==> outputChannel == old(outputChannel)
      ensures availableOutputTypes == old(availableOutputTypes)
      ensures availableOutputChannels == old(availableOutputChannels)
      ensures availableInputTypes == old(availableInputTypes)
      ensures availableInputChannels == old(availableInputChannels)
      ensures outputType == old(outputType) && inputType == old(inputType) && inputChannel == old(inputChannel)
    {
      var found := FindByDisplayName(availableOutputChannels, name);
      if found.Some? {
        outputChannel := availableOutputChannels[found.value];
        return false;
      }
      return true;
    }

    /** `set/input_routing_type`: as `SetOutputRoutingType`, for the input type. */
    method SetInputRoutingType(name: string) returns (warned: bool)
      modifies this
      ensures warned <==> name !in DisplayNames(availableInputTypes)
      ensures !warned ==>
                inputType == availableInputTypes[FirstIndexOf(DisplayNames(availableInputTypes), name).value] &&
                inputType.displayName == name
      ensures warned ==> inputType == old(inputType)
      ensures availableOutputTypes == old(availableOutputTypes)
      ensures availableOutputChannels == old(availableOutputChannels)
      ensures availableInputTypes == old(availableInputTypes)
      ensures availableInputChannels == old(availableInputChannels)
      ensures outputType == old(outputType) && outputChannel == old(outputChannel) && inputChannel == old(inputChannel)
    {
      var found := FindByDisplayName(availableInputTypes, name);
      if found.Some? {
        inputType := availableInputTypes[found.value];
        return false;
      }
      return true;
    }

    /** `set/input_routing_channel`: as `SetOutputRoutingType`, for the input channel. */
    method SetInputRoutingChannel(name: string) returns (warned: bool)
      modifies this
      ensures warned <==> name !in DisplayNames(availableInputChannels)
      ensures !warned ==>
                inputChannel == availableInputChannels[FirstIndexOf(DisplayNames(availableInputChannels), name).value] &&
                inputChannel.displayName == name
      ensures warned ==> inputChannel == old(inputChannel)
      ensures availableOutputTypes == old(availableOutputTypes)
      ensures availableOutputChannels == old(availableOutputChannels)
      ensures availableInputTypes == old(availableInputTypes)
      ensures availableInputChannels == old(availableInputChannels)
      ensures outputType == old(outputType) && outputChannel == old(outputChannel) && inputType == old(inputType)
    {
      var found := FindByDisplayName(availableInputChannels, name);
      if found.Some? {
        inputChannel := availableInputChannels[found.value];
        return false;
      }
      return true;
    }
  }

  /**
   * When two entries share a display name, the earlier one is chosen: the
   * search never passes over an entry with the requested name.
   */
  lemma EarliestEntryWins(entries: seq<RoutingEntry>, name: string, i: nat, j: nat)
    requires i < j < |entries|
    requires entries[i].displayName == name && entries[j].displayName == name
    ensures FirstIndexOf(DisplayNames(entries), name).Some?
    ensures FirstIndexOf(DisplayNames(entries), name).value <= i
  {
    var names := DisplayNames(entries);
    assert names[i] == name;
  }
}
