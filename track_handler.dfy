/**
 * Track requests: how a track index (or the wildcard `*`) is resolved and
 * fanned out to a handler, and the track-level handlers built on the device
 * flattener and on pipe-name splitting.
 */
module TrackHandler {
  import opened Values
  import opened LiveSet
  import opened DeviceTree
  import opened PipeNames

  /** The first argument of a track request: `*` or a track index. */
  datatype Selector = Wildcard | Index(index: int)

  /** `*` stands for the regular tracks only; a number stands for itself. */
  function ExpandIndices(song: Song, selector: Selector): seq<int>
  {
    match selector
    case Wildcard => seq(|song.tracks|, k => k)
    case Index(i) => [i]
  }

  /** The arguments the handler receives: the rest of the message, after the track index if asked for. */
  function HandlerArgs(index: int, rest: seq<Value>, includeTrackId: bool): seq<Value>
  {
    if includeTrackId then [Int(index)] + rest else rest
  }

  /** One turn of the fan-out loop: resolve the track, then run the handler on it. */
  function Step(song: Song, index: int, rest: seq<Value>,
                handler: (Track, seq<Value>) -> Outcome, includeTrackId: bool): Outcome
  {
    match ResolveTrack(song, index)
    case None => Raised(IndexError)
    case Some(track) => handler(track, HandlerArgs(index, rest, includeTrackId))
  }

  /** A reply is prefixed with the track index; `None` and exceptions pass through. */
  function Prefixed(index: int, outcome: Outcome): Outcome
  {
    match outcome
    case Returned(values) => Returned([Int(index)] + values)
    case _ => outcome
  }

  /** The handler run for the index at position `j` returned `None`: the loop goes on past it. */
  predicate SilentAt(song: Song, indices: seq<int>, j: nat, rest: seq<Value>,
                     handler: (Track, seq<Value>) -> Outcome, includeTrackId: bool)
    requires j < |indices|
  {
    Step(song, indices[j], rest, handler, includeTrackId).Silent?
  }

  /**
   * The fan-out from position `from` of the index list: the outcome of the
   * request and how far the loop got (the number of indices visited,
   * counted from the start of the list). See `FanOutStopsAtFirstAnswer`.
   */
  function FanOut(song: Song, indices: seq<int>, from: nat, rest: seq<Value>,
                  handler: (Track, seq<Value>) -> Outcome, includeTrackId: bool): (r: (Outcome, nat))
    requires from <= |indices|
    ensures from <= r.1 <= |indices|
    decreases |indices| - from
  {
    if from == |indices| then (Silent, from)
    else
      if SilentAt(song, indices, from, rest, handler, includeTrackId)
      then FanOut(song, indices, from + 1, rest, handler, includeTrackId)
      else (Prefixed(indices[from], Step(song, indices[from], rest, handler, includeTrackId)), from + 1)
  }

  /**
   * The fan-out stops at the first index whose handler returns something or
   * raises, and answers with that index's reply, prefixed with the index;
   * every index before it resolved and its handler returned `None`. When
   * nothing answers, every index was visited and no reply is sent.
   */
  lemma {:induction false} FanOutStopsAtFirstAnswer(song: Song, indices: seq<int>, from: nat, rest: seq<Value>,
                                                    handler: (Track, seq<Value>) -> Outcome, includeTrackId: bool)
    requires from <= |indices|
    ensures var r := FanOut(song, indices, from, rest, handler, includeTrackId);
            r.0.Silent? ==>
              r.1 == |indices| &&
              forall j :: from <= j < |indices| ==> SilentAt(song, indices, j, rest, handler, includeTrackId)
    ensures var r := FanOut(song, indices, from, rest, handler, includeTrackId);
            !r.0.Silent? ==>
              from < r.1 &&
              (forall j :: from <= j < r.1 - 1 ==> SilentAt(song, indices, j, rest, handler, includeTrackId)) &&
              !SilentAt(song, indices, r.1 - 1, rest, handler, includeTrackId) &&
              r.0 == Prefixed(indices[r.1 - 1], Step(song, indices[r.1 - 1], rest, handler, includeTrackId))
    decreases |indices| - from
  {
    if from < |indices| && SilentAt(song, indices, from, rest, handler, includeTrackId) {
      FanOutStopsAtFirstAnswer(song, indices, from + 1, rest, handler, includeTrackId);
    }
  }

  /** When every handler returns `None`, the fan-out visits every index and sends nothing. */
  lemma {:induction false} FanOutAllSilent(song: Song, indices: seq<int>, from: nat, rest: seq<Value>,
                                           handler: (Track, seq<Value>) -> Outcome, includeTrackId: bool)
    requires from <= |indices|
    requires forall j :: from <= j < |indices| ==> SilentAt(song, indices, j, rest, handler, includeTrackId)
    ensures FanOut(song, indices, from, rest, handler, includeTrackId) == (Silent, |indices|)
    decreases |indices| - from
  {
    if from < |indices| {
      assert SilentAt(song, indices, from, rest, handler, includeTrackId);
      FanOutAllSilent(song, indices, from + 1, rest, handler, includeTrackId);
    }
  }

  /** `track_callback`: expand the selector, then run the handler track by track. */
  method TrackCallback(song: Song, selector: Selector, rest: seq<Value>,
                       handler: (Track, seq<Value>) -> Outcome, includeTrackId: bool)
    returns (reply: Outcome, visited: nat)
    ensures (reply, visited) == FanOut(song, ExpandIndices(song, selector), 0, rest, handler, includeTrackId)
  {
    var indices := ExpandIndices(song, selector);
    var n := 0;
    while n < |indices|
      invariant 0 <= n <= |indices|
      invariant FanOut(song, indices, 0, rest, handler, includeTrackId)
             == FanOut(song, indices, n, rest, handler, includeTrackId)
    {
      var index := indices[n];
      var track := ResolveTrack(song, index);
      if track.None? {
        return Raised(IndexError), n + 1;
      }
      var rv := handler(track.value, HandlerArgs(index, rest, includeTrackId));
      if !rv.Silent? {
        return Prefixed(index, rv), n + 1;
      }
      n := n + 1;
    }
    reply, visited := Silent, n;
  }

  /** `*` addresses exactly the regular tracks, in order; never a return track or the master. */
  lemma WildcardAddressesRegularTracks(song: Song)
    ensures |ExpandIndices(song, Wildcard)| == |song.tracks|
    ensures forall j :: 0 <= j < |song.tracks| ==>
              ExpandIndices(song, Wildcard)[j] == j &&
              ResolveTrack(song, ExpandIndices(song, Wildcard)[j]) == Some(song.tracks[j])
  {
  }

  /** A handler that returns `None` everywhere is run on every regular track. */
  lemma WildcardRunsSilentHandlerOnEveryTrack(song: Song, rest: seq<Value>,
                                              handler: (Track, seq<Value>) -> Outcome, includeTrackId: bool)
    requires forall j :: 0 <= j < |song.tracks| ==>
               handler(song.tracks[j], HandlerArgs(j, rest, includeTrackId)).Silent?
    ensures FanOut(song, ExpandIndices(song, Wildcard), 0, rest, handler, includeTrackId) == (Silent, |song.tracks|)
  {
    var indices := ExpandIndices(song, Wildcard);
    WildcardAddressesRegularTracks(song);
    forall j | 0 <= j < |indices|
      ensures SilentAt(song, indices, j, rest, handler, includeTrackId)
    {
      assert ResolveTrack(song, indices[j]) == Some(song.tracks[j]);
    }
    FanOutAllSilent(song, indices, 0, rest, handler, includeTrackId);
  }

  /**
   * A wildcard request whose handler answers for the first track gets that
   * one reply only: the loop returns at the first reply.
   */
  lemma WildcardStopsAtFirstReply(song: Song, rest: seq<Value>,
                                  handler: (Track, seq<Value>) -> Outcome, includeTrackId: bool)
    requires |song.tracks| > 0
    requires handler(song.tracks[0], HandlerArgs(0, rest, includeTrackId)).Returned?
    ensures FanOut(song, ExpandIndices(song, Wildcard), 0, rest, handler, includeTrackId)
         == (Returned([Int(0)] + handler(song.tracks[0], HandlerArgs(0, rest, includeTrackId)).values), 1)
  {
    WildcardAddressesRegularTracks(song);
  }

  // ---------------------------------------------------------------------
  // Track-level handlers
  // ---------------------------------------------------------------------

  /** `num_devices` counted through the flattener: racks and everything in them. */
  function NumDevicesRacksIncluded(track: Track): (r: Outcome)
    ensures r == Returned([Int(SizeAll(track.devices))])
  {
    FlattenLength(track.devices);
    Returned([Int(|Flatten(track.devices)|)])
  }

  /** `"'" + name + "'"`: how a single name is sent. */
  function Quote(name: string): string
  {
    "'" + name + "'"
  }

  /** The strings of a list of `Text` fields, or `None` if some field is not text. */
  function TextsOf(vs: seq<Value>): (r: Option<seq<string>>)
    ensures r.Some? ==> Texts(r.value) == vs
  {
    if vs == [] then Some([])
    else if !vs[0].Text? then None
    else match TextsOf(vs[1..])
      case None => None
      case Some(tail) => Some([vs[0].s] + tail)
  }

  /**
   * How a client reads a name field back: a list of parts is joined with
   * the separator, a quoted string loses its quotes.
   */
  function DecodeName(v: Value): Option<string>
  {
    match v
    case List(items) =>
      (match TextsOf(items)
       case None => None
       case Some(parts) => Some(Join(parts)))
    case Text(q) =>
      if |q| >= 2 && q[0] == '\'' && q[|q| - 1] == '\'' then Some(q[1..|q| - 1]) else None
    case _ => None
  }

  lemma {:induction false} TextsOfTexts(ss: seq<string>)
    ensures TextsOf(Texts(ss)) == Some(ss)
    decreases ss
  {
    if ss != [] {
      var vs := Texts(ss);
      assert vs == [Text(ss[0])] + Texts(ss[1..]);
      assert vs[0] == Text(ss[0]) && vs[1..] == Texts(ss[1..]);
      TextsOfTexts(ss[1..]);
      assert [ss[0]] + ss[1..] == ss;
    }
  }

  /**
   * How one name is sent: the list of its parts when it contains the
   * separator, otherwise the name in quotes.
   */
  function NameField(name: string): Value
  {
    if HasSeparator(name) then List(Texts(Split(name))) else Text(Quote(name))
  }

  /** The client reads every name back from its field; a list always has at least two parts. */
  lemma NameFieldDecodes(name: string)
    ensures DecodeName(NameField(name)) == Some(name)
    ensures NameField(name).List? ==> |NameField(name).items| >= 2
  {
    if HasSeparator(name) {
      SplitPipesRoundTrip(name);
      SplitIsProperExactlyWithSeparator(name);
      TextsOfTexts(Split(name));
    } else {
      var q := Quote(name);
      assert q[1..|q| - 1] == name;
    }
  }

  /**
   * `/live/return_track/get/name`: the index echoed, then the name field.
   * The client gets the name back; an index outside the return tracks raises.
   */
  function ReturnTrackName(song: Song, trackId: int): (r: Outcome)
    ensures PyIndex(|song.returnTracks|, trackId).None? ==> r == Raised(IndexError)
    ensures PyIndex(|song.returnTracks|, trackId).Some? ==>
              r.Returned? && |r.values| == 2 && r.values[0] == Int(trackId) &&
              DecodeName(r.values[1]) == Some(song.returnTracks[PyIndex(|song.returnTracks|, trackId).value].name)
    ensures PyIndex(|song.returnTracks|, trackId).Some? ==>
              var n := song.returnTracks[PyIndex(|song.returnTracks|, trackId).value].name;
              r.Returned? && |r.values| == 2 &&
              r.values[1] == (if HasSeparator(n) then List(Texts(Split(n))) else Text(Quote(n)))
  {
    match PyIndex(|song.returnTracks|, trackId)
    case None => Raised(IndexError)
    case Some(k) =>
      var name := song.returnTracks[k].name;
      NameFieldDecodes(name);
      Returned([Int(trackId), NameField(name)])
  }

  /**
   * `/live/return_track/get/devices/name`: the names of the return track's
   * flattened devices, each name with the separator expanded into its parts.
   * When no name has the separator there is one entry per flat device.
   */
  method ReturnTrackDevicesName(song: Song, trackId: int) returns (r: Outcome)
    ensures PyIndex(|song.returnTracks|, trackId).None? ==> r == Raised(IndexError)
    ensures PyIndex(|song.returnTracks|, trackId).Some? ==>
              var devices := Flatten(song.returnTracks[PyIndex(|song.returnTracks|, trackId).value].devices);
              r == Returned([Int(trackId), List(Texts(SplitAll(DeviceNames(devices))))]) &&
              ((forall k :: 0 <= k < |devices| ==> !HasSeparator(devices[k].info.name)) ==>
                 r == Returned([Int(trackId), List(Texts(DeviceNames(devices)))]))
  {
    var k := PyIndex(|song.returnTracks|, trackId);
    if k.None? {
      return Raised(IndexError);
    }
    var deviceList := GetAllDevices(song.returnTracks[k.value]);
    var names := SplitNames(DeviceNames(deviceList));
    if forall j :: 0 <= j < |deviceList| ==> !HasSeparator(deviceList[j].info.name) {
      SplitAllWithoutSeparators(DeviceNames(deviceList));
    }
    r := Returned([Int(trackId), List(Texts(names))]);
  }

  /**
   * `/live/device/get/names_of_chains` as the track handler answers it: the
   * device at a flat index must be a rack (a plain device has no `chains`
   * and raises AttributeError); its chain names are expanded in chain order.
   */
  method TrackDeviceNamesOfChains(track: Track, deviceIndex: int) returns (r: Outcome)
    ensures ResolveDevice(track, deviceIndex).None? ==> r == Raised(IndexError)
    ensures ResolveDevice(track, deviceIndex).Some? && ResolveDevice(track, deviceIndex).value.Leaf? ==>
              r == Raised(AttributeError)
    ensures ResolveDevice(track, deviceIndex).Some? && ResolveDevice(track, deviceIndex).value.Rack? ==>
              r == Returned([Int(deviceIndex),
                             List([List(Texts(SplitAll(ChainNames(ResolveDevice(track, deviceIndex).value.chains))))])])
  {
    var fullData := GetAllDevices(track);
    var k := PyIndex(|fullData|, deviceIndex);
    if k.None? {
      return Raised(IndexError);
    }
    var device := fullData[k.value];
    if device.Leaf? {
      return Raised(AttributeError);
    }
    var chainsList := SplitNames(ChainNames(device.chains));
    r := Returned([Int(deviceIndex), List([List(Texts(chainsList))])]);
  }

  /**
   * `/live/device/get/selected`: the first positions (counted from the
   * start, never negative) of the selected track in
   * `tracks + return_tracks + (master,)` and of the selected device in that
   * track's flat list. The pair addresses exactly the selected device again;
   * a selection that cannot be found raises IndexError.
   */
  function SelectedDevice(song: Song, selectedTrack: Track, selectedDevice: Option<Device>): (r: Outcome)
    ensures r.Returned? || r == Raised(IndexError)
    ensures r.Raised? <==>
              selectedDevice.None? || selectedDevice.value !in Flatten(selectedTrack.devices) ||
              selectedTrack !in AllTracks(song)
    ensures r.Returned? ==>
              |r.values| == 2 && r.values[0].Int? && r.values[1].Int? &&
              ResolveTrack(song, r.values[0].i) == Some(selectedTrack) &&
              ResolveDevice(selectedTrack, r.values[1].i) == selectedDevice
    ensures r.Returned? ==>
              var tracks, flat := AllTracks(song), Flatten(selectedTrack.devices);
              0 <= r.values[0].i < |tracks| && tracks[r.values[0].i] == selectedTrack &&
              (forall j :: 0 <= j < r.values[0].i ==> tracks[j] != selectedTrack) &&
              0 <= r.values[1].i < |flat| && flat[r.values[1].i] == selectedDevice.value &&
              (forall j :: 0 <= j < r.values[1].i ==> flat[j] != selectedDevice.value)
  {
    if selectedDevice.None? then Raised(IndexError)
    else
      match FirstIndexOf(Flatten(selectedTrack.devices), selectedDevice.value)
      case None => Raised(IndexError)
      case Some(d) =>
        match FirstIndexOf(AllTracks(song), selectedTrack)
        case None => Raised(IndexError)
        case Some(t) => Returned([Int(t), Int(d)])
  }
}
