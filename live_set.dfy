/**
 * The parts of the host's live object model that the handlers read: a song
 * with its regular tracks, return tracks and master track; a track's devices;
 * rack devices with their chains; and device parameters.
 *
 * Host objects are compared by identity in the original code; the `id`
 * fields stand for that identity, so two distinct host objects never compare
 * equal here even when all their other attributes agree.
 */
module LiveSet {
  import opened Values

  datatype Parameter = Parameter(name: string, value: real, min: real, max: real, isQuantized: bool)

  datatype DeviceInfo = DeviceInfo(id: nat, name: string, parameters: seq<Parameter>)

  /**
   * A device is either a plain device or a rack, which owns an ordered
   * sequence of chains. A rack is recognised by this tag rather than by the
   * name of its host class.
   */
  datatype Device =
    | Leaf(info: DeviceInfo)
    | Rack(info: DeviceInfo, chains: seq<Chain>)

  /** A chain inside a rack: a name and an ordered sequence of devices. */
  datatype Chain = Chain(name: string, devices: seq<Device>)

  datatype Track = Track(id: nat, name: string, devices: seq<Device>)

  datatype Song = Song(tracks: seq<Track>, returnTracks: seq<Track>, master: Track)

  /** The names of a list of devices, in order. */
  function DeviceNames(ds: seq<Device>): (r: seq<string>)
    ensures |r| == |ds|
    ensures forall k :: 0 <= k < |ds| ==> r[k] == ds[k].info.name
  {
    if ds == [] then [] else [ds[0].info.name] + DeviceNames(ds[1..])
  }

  /** The names of a rack's chains, in chain order. */
  function ChainNames(cs: seq<Chain>): (r: seq<string>)
    ensures |r| == |cs|
    ensures forall k :: 0 <= k < |cs| ==> r[k] == cs[k].name
  {
    if cs == [] then [] else [cs[0].name] + ChainNames(cs[1..])
  }

  /** The list a track index addresses: `tracks + return_tracks + (master_track,)`. */
  function AllTracks(song: Song): (r: seq<Track>)
    ensures |r| == |song.tracks| + |song.returnTracks| + 1
    ensures r[|r| - 1] == song.master
  {
    song.tracks + song.returnTracks + [song.master]
  }

  /** The regular tracks come first, then the return tracks, then the master. */
  lemma AllTracksLayout(song: Song)
    ensures forall k :: 0 <= k < |song.tracks| ==> AllTracks(song)[k] == song.tracks[k]
    ensures forall k :: 0 <= k < |song.returnTracks| ==>
              AllTracks(song)[|song.tracks| + k] == song.returnTracks[k]
  {
  }

  /** The track a (possibly negative) track index addresses, or `None` for IndexError. */
  function ResolveTrack(song: Song, index: int): (r: Option<Track>)
    ensures r.Some? <==> 0 <= |AllTracks(song)| + index && index < |AllTracks(song)|
    ensures r.Some? ==> r.value in AllTracks(song)
  {
    var all := AllTracks(song);
    match PyIndex(|all|, index)
    case None => None
    case Some(k) => Some(all[k])
  }

  /**
   * Which track an index addresses: 0 .. n-1 are the regular tracks, the
   * next ones the return tracks, the last one the master; a negative index
   * counts back from the master (-1 is the master).
   */
  lemma ResolveTrackAddresses(song: Song, index: int)
    ensures 0 <= index < |song.tracks| ==> ResolveTrack(song, index) == Some(song.tracks[index])
    ensures |song.tracks| <= index < |song.tracks| + |song.returnTracks| ==>
              ResolveTrack(song, index) == Some(song.returnTracks[index - |song.tracks|])
    ensures index == |song.tracks| + |song.returnTracks| || index == -1 ==>
              ResolveTrack(song, index) == Some(song.master)
    ensures -|AllTracks(song)| <= index < 0 ==>
              ResolveTrack(song, index) == ResolveTrack(song, |AllTracks(song)| + index)
  {
    AllTracksLayout(song);
    if |song.tracks| <= index < |song.tracks| + |song.returnTracks| {
      assert AllTracks(song)[|song.tracks| + (index - |song.tracks|)] == song.returnTracks[index - |song.tracks|];
    }
  }
}
