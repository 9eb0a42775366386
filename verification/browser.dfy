/** The browser objects that the app holds handles to. Only the state the app
    reads or changes is kept: whether a session was closed, whether a track is
    enabled or stopped, whether a processor is connected, what state an audio
    context is in, and the samples of an audio buffer. */
module Browser {

  /** The SDK's live session; `close()` sets `closed`. */
  class LiveSession {
    var closed: bool

    constructor ()
      ensures !closed
    {
      closed := false;
    }
  }

  /** A capture track: `enabled` mutes it, `stop()` ends it. */
  class Track {
    var enabled: bool
    var stopped: bool

    constructor (enabled: bool)
      ensures this.enabled == enabled && !stopped
    {
      this.enabled := enabled;
      stopped := false;
    }
  }

  /** A capture stream. The app asks only for audio, so `getTracks()` and
      `getAudioTracks()` both return `tracks`. */
  class MediaStream {
    const tracks: seq<Track>

    constructor (tracks: seq<Track>)
      ensures this.tracks == tracks
    {
      this.tracks := tracks;
    }
  }

  /** The fixed-size capture callback node; `disconnect()` clears `connected`. */
  class ScriptProcessor {
    var connected: bool

    constructor ()
      ensures connected
    {
      connected := true;
    }
  }

  datatype ContextState = Running | Suspended | Closed

  class AudioContext {
    const sampleRate: nat
    var state: ContextState

    constructor (sampleRate: nat)
      ensures this.sampleRate == sampleRate && state == Running
    {
      this.sampleRate := sampleRate;
      state := Running;
    }
  }

  /** A decoded audio buffer: `data[c, i]` is `getChannelData(c)[i]`. */
  class AudioBuffer {
    const numberOfChannels: nat
    const length: nat
    const sampleRate: nat
    const data: array2<real>

    constructor (numberOfChannels: nat, length: nat, sampleRate: nat)
      requires sampleRate > 0
      ensures this.numberOfChannels == numberOfChannels && this.length == length
      ensures this.sampleRate == sampleRate && this.sampleRate > 0
      ensures fresh(data) && data.Length0 == numberOfChannels && data.Length1 == length
    {
      this.numberOfChannels := numberOfChannels;
      this.length := length;
      this.sampleRate := sampleRate;
      data := new real[numberOfChannels, length];
    }
  }

  /** Playing time of `length` frames at `sampleRate`, in seconds. */
  function Duration(length: nat, sampleRate: nat): (d: real)
    requires sampleRate > 0
    ensures d >= 0.0
    ensures d * sampleRate as real == length as real
  {
    length as real / sampleRate as real
  }

  /** The handles the session start hands back to the app. */
  datatype Handles = Handles(
    session: LiveSession,
    mediaStream: MediaStream,
    audioContext: AudioContext,
    scriptProcessor: ScriptProcessor)

  /** The objects of a list of tracks, for frames. */
  function TrackSet(tracks: seq<Track>): set<Track> {
    set t | t in tracks
  }

  /** `tracks.forEach(track => track.enabled = enabled)`. */
  method SetEnabled(tracks: seq<Track>, enabled: bool)
    modifies TrackSet(tracks)
    ensures forall t :: t in tracks ==> t.enabled == enabled && t.stopped == old(t.stopped)
  {
    for i := 0 to |tracks|
      invariant forall j :: 0 <= j < i ==> tracks[j].enabled == enabled
      invariant forall t :: t in tracks ==> t.stopped == old(t.stopped)
    {
      tracks[i].enabled := enabled;
    }
  }

  /** `tracks.forEach(track => track.stop())`. */
  method StopAll(tracks: seq<Track>)
    modifies TrackSet(tracks)
    ensures forall t :: t in tracks ==> t.stopped && t.enabled == old(t.enabled)
  {
    for i := 0 to |tracks|
      invariant forall j :: 0 <= j < i ==> tracks[j].stopped
      invariant forall t :: t in tracks ==> t.enabled == old(t.enabled)
    {
      tracks[i].stopped := true;
    }
  }
}
