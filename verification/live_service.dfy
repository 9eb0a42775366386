/** The session side of services/geminiService.ts: the playback scheduler that
    the `onmessage` callback drives (a cursor `nextStartTime` and the set of
    playing sources), and the wiring `startLanguageTutorSession` does around
    the SDK's connect call and the microphone request.

    Time is exact `real` seconds; the output context's clock
    (`currentTime`) is a parameter of each message. Each `onmessage` call is
    one atomic step. */
module LiveService {
  import opened Wrappers
  import opened Types
  import Browser
  import Codec

  /** Sample rate of the audio the model sends (and of the output context). */
  const OutputSampleRate: nat := 24000

  /** Sample rate of the microphone context. */
  const InputSampleRate: nat := 16000

  /** `Math.max` on two finite numbers. */
  function Max(a: real, b: real): (r: real)
    ensures r >= a && r >= b && (r == a || r == b)
  {
    if a >= b then a else b
  }

  /** A buffer source node that has been started at `startTime`. */
  class SourceNode {
    const duration: real
    var startTime: real
    var stopped: bool

    constructor (duration: real, startTime: real)
      ensures this.duration == duration && this.startTime == startTime && !stopped
    {
      this.duration := duration;
      this.startTime := startTime;
      stopped := false;
    }
  }

  /** What the audio part of a message amounts to. */
  datatype AudioOutcome =
    | NoAudio                       // no inline data, or empty text
    | ReadFails(error: JsError)     // reading the inline data throws
    | DecodeFails(error: JsError)   // atob, the Int16 view or createBuffer throws
    | Plays(duration: real)         // a chunk of this many seconds is scheduled

  /** The audio outcome of a message, following lines 96-99: the inline data
      is read, tested for truthiness, base64-decoded, viewed as 16-bit mono
      samples at 24 kHz, and its duration is frames over rate. */
  function AudioOutcomeOf(m: ServerMessage, atob: string -> Option<string>): (r: AudioOutcome)
    ensures r.Plays? ==> r.duration > 0.0
    ensures r.ReadFails? <==> AudioData(m).Failure?
    ensures r.NoAudio? <==> AudioData(m).Success? && (AudioData(m).value.None? || AudioData(m).value.value == "")
  {
    match AudioData(m)
    case Failure(e) => ReadFails(e)
    case Success(None) => NoAudio
    case Success(Some(text)) =>
      if text == "" then NoAudio
      else
        match atob(text)
        case None => DecodeFails(InvalidCharacterError)
        case Some(binary) =>
          match Codec.FrameCount(Codec.BytesOf(binary), 1)
          case Failure(e) => DecodeFails(e)
          case Success(frames) =>
            var d := Browser.Duration(frames, OutputSampleRate);
            assert d * OutputSampleRate as real == frames as real;
            Plays(d)
  }

  /** The scheduler state of one session. */
  class Player {
    var nextStartTime: real
    var sources: set<SourceNode>

    /** The cursor is never negative, every tracked source is still playing,
        and every tracked source ends no later than the cursor: a chunk
        started at the cursor overlaps none of them. */
    ghost predicate Valid()
      reads this, sources
    {
      0.0 <= nextStartTime &&
      forall s :: s in sources ==> !s.stopped && 0.0 <= s.startTime && s.startTime + s.duration <= nextStartTime
    }

    /** Lines 84 and 88: cursor at zero, nothing playing. */
    constructor ()
      ensures Valid() && nextStartTime == 0.0 && sources == {}
    {
      nextStartTime := 0.0;
      sources := {};
    }

    /** Lines 100-106: start a chunk at the cursor, advance the cursor past
        it and track it. */
    method Play(duration: real) returns (source: SourceNode)
      requires Valid() && 0.0 <= duration
      modifies this
      ensures Valid()
      ensures fresh(source) && !source.stopped
      ensures source.startTime == old(nextStartTime) && source.duration == duration
      ensures nextStartTime == source.startTime + duration
      ensures sources == old(sources) + {source}
      ensures forall s :: s in old(sources) ==> s.startTime + s.duration <= source.startTime
    {
      source := new SourceNode(duration, nextStartTime);
      nextStartTime := nextStartTime + duration;
      sources := sources + {source};
    }

    /** The `ended` listener of line 103: drop the source from the set. */
    method OnEnded(source: SourceNode)
      requires Valid()
      modifies this`sources
      ensures Valid() && sources == old(sources) - {source}
    {
      sources := sources - {source};
    }

    /** Lines 110-116: stop every tracked source, empty the set, reset the
        cursor. Sources no longer tracked are not touched. */
    method Interrupt()
      requires Valid()
      modifies this, sources
      ensures Valid() && sources == {} && nextStartTime == 0.0
      ensures forall s :: s in old(sources) ==> s.stopped && s.startTime == old(s.startTime)
    {
      while sources != {}
        invariant sources <= old(sources)
        invariant forall s :: s in old(sources) ==> s.startTime == old(s.startTime)
        invariant forall s :: s in old(sources) - sources ==> s.stopped
        invariant Valid()
        decreases sources
      {
        var source :| source in sources;
        source.stopped := true;
        sources := sources - {source};
      }
      nextStartTime := 0.0;
    }

    /** The audio and interrupt part of `onmessage` (lines 96-116); the call
        to the app's transcript handler at line 95 touches none of this
        state. Audio is scheduled first, at `max(cursor, clock)`, then the
        interrupt is handled. A throw while reading the inline data leaves
        everything as it was; a throw while decoding comes after the cursor
        was raised to the clock and skips the rest, the interrupt included. */
    method OnMessage(message: ServerMessage, clock: real, atob: string -> Option<string>)
      returns (played: SourceNode?)
      requires Valid() && 0.0 <= clock
      modifies this, sources
      ensures Valid()
      ensures var outcome := AudioOutcomeOf(message, atob);
        && (outcome.ReadFails? ==>
              played == null && nextStartTime == old(nextStartTime) && sources == old(sources))
        && (outcome.DecodeFails? ==>
              played == null && nextStartTime == Max(old(nextStartTime), clock) && sources == old(sources))
        && (outcome.NoAudio? ==> played == null)
        && (outcome.NoAudio? && !Interrupted(message) ==>
              nextStartTime == old(nextStartTime) && sources == old(sources))
        && (outcome.Plays? ==>
              played != null && fresh(played)
              && played.startTime == Max(old(nextStartTime), clock) && played.duration == outcome.duration)
        && (outcome.Plays? && !Interrupted(message) ==>
              !played.stopped && nextStartTime == played.startTime + played.duration
              && sources == old(sources) + {played})
        && ((outcome.NoAudio? || outcome.Plays?) && Interrupted(message) ==>
              nextStartTime == 0.0 && sources == {}
              && (forall s :: s in old(sources) ==> s.stopped)
              && (played != null ==> played.stopped))
      ensures forall s :: s in old(sources) ==> s.startTime == old(s.startTime)
      ensures var outcome := AudioOutcomeOf(message, atob);
        !(Interrupted(message) && (outcome.NoAudio? || outcome.Plays?)) ==>
          forall s :: s in old(sources) ==> s.stopped == old(s.stopped)
    {
      played := null;
      var audio := AudioData(message);
      if audio.Failure? {
        return;
      }
      if audio.value.Some? && audio.value.value != "" {
        nextStartTime := Max(nextStartTime, clock);
        var bytes := Codec.Decode(audio.value.value, atob);
        if bytes.Failure? {
          return;
        }
        var buffer := Codec.DecodeAudioData(bytes.value, OutputSampleRate, 1);
        if buffer.Failure? {
          return;
        }
        played := Play(Browser.Duration(buffer.value.length, buffer.value.sampleRate));
      }
      if Interrupted(message) {
        Interrupt();
      }
    }
  }

  // ---------------------------------------------------------------------------
  // A run of chunks

  /** A chunk arriving when the clock reads `clock`, lasting `duration`. */
  datatype Arrival = Arrival(clock: real, duration: real)

  /** The start times the scheduler gives a run of chunks with no interrupt,
      from cursor `cursor`. */
  function StartTimes(cursor: real, chunks: seq<Arrival>): (starts: seq<real>)
    ensures |starts| == |chunks|
    decreases |chunks|
  {
    if chunks == [] then []
    else
      var start := Max(cursor, chunks[0].clock);
      [start] + StartTimes(start + chunks[0].duration, chunks[1..])
  }

  /** The cursor a run of chunks with no interrupt leaves, from `cursor`. */
  function EndOf(cursor: real, chunks: seq<Arrival>): real
    decreases |chunks|
  {
    if chunks == [] then cursor
    else EndOf(Max(cursor, chunks[0].clock) + chunks[0].duration, chunks[1..])
  }

  /** One more chunk at the end of a run starts at the larger of the run's
      final cursor and its own clock, and moves the cursor past its end. */
  lemma {:induction false} StartTimesSnoc(cursor: real, chunks: seq<Arrival>, last: Arrival)
    ensures StartTimes(cursor, chunks + [last]) ==
      StartTimes(cursor, chunks) + [Max(EndOf(cursor, chunks), last.clock)]
    ensures EndOf(cursor, chunks + [last]) == Max(EndOf(cursor, chunks), last.clock) + last.duration
    decreases |chunks|
  {
    if chunks == [] {
      assert [last][1..] == [];
    } else {
      var next := Max(cursor, chunks[0].clock) + chunks[0].duration;
      assert (chunks + [last])[0] == chunks[0];
      assert (chunks + [last])[1..] == chunks[1..] + [last];
      StartTimesSnoc(next, chunks[1..], last);
    }
  }

  /** Chunk k > 0 starts at the larger of the previous chunk's end and the
      clock when it arrives. */
  lemma {:induction false} StartTimeAt(cursor: real, chunks: seq<Arrival>, k: nat)
    requires 0 < k < |chunks|
    ensures StartTimes(cursor, chunks)[k] ==
      Max(StartTimes(cursor, chunks)[k - 1] + chunks[k - 1].duration, chunks[k].clock)
    decreases k
  {
    var start := Max(cursor, chunks[0].clock);
    var rest := StartTimes(start + chunks[0].duration, chunks[1..]);
    assert StartTimes(cursor, chunks) == [start] + rest;
    if k > 1 {
      StartTimeAt(start + chunks[0].duration, chunks[1..], k - 1);
      assert chunks[1..][k - 2] == chunks[k - 1] && chunks[1..][k - 1] == chunks[k];
    }
  }

  /** With non-negative durations, a later chunk starts no earlier than an
      earlier one ends. */
  lemma {:induction false} StartsAfterEarlierEnds(cursor: real, chunks: seq<Arrival>, j: nat, k: nat)
    requires forall i :: 0 <= i < |chunks| ==> 0.0 <= chunks[i].duration
    requires j < k < |chunks|
    ensures StartTimes(cursor, chunks)[j] + chunks[j].duration <= StartTimes(cursor, chunks)[k]
    decreases k - j
  {
    StartTimeAt(cursor, chunks, k);
    if j < k - 1 {
      StartsAfterEarlierEnds(cursor, chunks, j, k - 1);
    }
  }

  /** With non-negative durations, every chunk starts no earlier than it
      arrives, no earlier than the cursor, and no earlier than any earlier
      chunk ends: start times never decrease and no two chunks overlap. */
  lemma {:induction false} StartTimesGapless(cursor: real, chunks: seq<Arrival>)
    requires forall k :: 0 <= k < |chunks| ==> 0.0 <= chunks[k].duration
    ensures var starts := StartTimes(cursor, chunks);
      && (chunks != [] ==> starts[0] == Max(cursor, chunks[0].clock))
      && (forall k :: 0 < k < |chunks| ==>
            starts[k] == Max(starts[k - 1] + chunks[k - 1].duration, chunks[k].clock))
      && (forall k :: 0 <= k < |chunks| ==> starts[k] >= chunks[k].clock && starts[k] >= cursor)
      && (forall j, k :: 0 <= j < k < |chunks| ==> starts[j] + chunks[j].duration <= starts[k])
  {
    var starts := StartTimes(cursor, chunks);
    forall k | 0 < k < |chunks|
      ensures starts[k] == Max(starts[k - 1] + chunks[k - 1].duration, chunks[k].clock)
    {
      StartTimeAt(cursor, chunks, k);
    }
    forall j, k | 0 <= j < k < |chunks|
      ensures starts[j] + chunks[j].duration <= starts[k]
    {
      StartsAfterEarlierEnds(cursor, chunks, j, k);
    }
    forall k | 0 <= k < |chunks|
      ensures starts[k] >= chunks[k].clock && starts[k] >= cursor
    {
      if k > 0 {
        StartTimeAt(cursor, chunks, k);
        StartsAfterEarlierEnds(cursor, chunks, 0, k);
      }
    }
  }

  /** Right after an interrupt the cursor is zero, so the next chunk starts at
      the clock itself and not behind audio that was cut off. */
  lemma {:induction false} ResumeAtClock(chunks: seq<Arrival>)
    requires chunks != [] && 0.0 <= chunks[0].clock
    ensures StartTimes(0.0, chunks)[0] == chunks[0].clock
  {
    assert StartTimes(0.0, chunks)[0] == Max(0.0, chunks[0].clock);
  }

  /** The chunks a run of messages delivers, each with the clock it arrives at. */
  function Arrivals(messages: seq<ServerMessage>, clocks: seq<real>, atob: string -> Option<string>): (chunks: seq<Arrival>)
    requires |clocks| == |messages|
    ensures |chunks| == |messages|
    ensures forall k :: 0 <= k < |messages| && AudioOutcomeOf(messages[k], atob).Plays? ==>
      chunks[k] == Arrival(clocks[k], AudioOutcomeOf(messages[k], atob).duration)
  {
    seq(|messages|, k requires 0 <= k < |messages| =>
      var outcome := AudioOutcomeOf(messages[k], atob);
      Arrival(clocks[k], if outcome.Plays? then outcome.duration else 0.0))
  }

  /** A run of `onmessage` calls, each carrying playable audio and no
      interrupt: the sources are started exactly at the times `StartTimes`
      gives, so the run is gapless and overlap-free by `StartTimesGapless`. */
  method ScheduleRun(player: Player, messages: seq<ServerMessage>, clocks: seq<real>, atob: string -> Option<string>)
    returns (played: seq<SourceNode>)
    requires player.Valid() && |clocks| == |messages|
    requires forall k :: 0 <= k < |messages| ==>
      0.0 <= clocks[k] && AudioOutcomeOf(messages[k], atob).Plays? && !Interrupted(messages[k])
    modifies player, player.sources
    ensures player.Valid()
    ensures |played| == |messages|
    ensures forall k :: 0 <= k < |played| ==>
      played[k].startTime == StartTimes(old(player.nextStartTime), Arrivals(messages, clocks, atob))[k]
    ensures player.nextStartTime == EndOf(old(player.nextStartTime), Arrivals(messages, clocks, atob))
  {
    ghost var cursor := player.nextStartTime;
    ghost var chunks := Arrivals(messages, clocks, atob);
    ghost var starts: seq<real> := [];
    played := [];
    for k := 0 to |messages|
      invariant player.Valid()
      invariant forall s :: s in player.sources ==> s in old(player.sources) || fresh(s)
      invariant |played| == k && |starts| == k
      invariant starts == StartTimes(cursor, chunks[..k])
      invariant forall j :: 0 <= j < k ==> played[j] in player.sources && played[j].startTime == starts[j]
      invariant player.nextStartTime == EndOf(cursor, chunks[..k])
    {
      var source := player.OnMessage(messages[k], clocks[k], atob);
      StartTimesSnoc(cursor, chunks[..k], chunks[k]);
      assert chunks[..k + 1] == chunks[..k] + [chunks[k]];
      starts := starts + [source.startTime];
      played := played + [source];
    }
    assert chunks[..|messages|] == chunks;
  }

  /** An interrupting message followed by one that carries audio: the reset
      cursor makes the new chunk start at the clock it arrives at, not behind
      the audio that was cut off. */
  method PlayAfterInterrupt(player: Player, interrupting: ServerMessage, clock1: real,
                            next: ServerMessage, clock2: real, atob: string -> Option<string>)
    returns (played: SourceNode?)
    requires player.Valid() && 0.0 <= clock1 && 0.0 <= clock2
    requires Interrupted(interrupting)
    requires AudioOutcomeOf(interrupting, atob).NoAudio? || AudioOutcomeOf(interrupting, atob).Plays?
    requires AudioOutcomeOf(next, atob).Plays?
    modifies player, player.sources
    ensures player.Valid()
    ensures played != null && played.startTime == clock2
    ensures !Interrupted(next) ==>
      player.sources == {played} && player.nextStartTime == clock2 + AudioOutcomeOf(next, atob).duration
  {
    var cut := player.OnMessage(interrupting, clock1, atob);
    played := player.OnMessage(next, clock2, atob);
  }

  // ---------------------------------------------------------------------------
  // Session start

  /** `startLanguageTutorSession` with the SDK connect and the microphone
      request as given outcomes. The scheduler starts empty; the connect call
      is made first but awaited last, so a microphone failure is what the
      caller sees when both fail. Once the microphone is granted, its tracks
      are enabled unless muted and a 16 kHz input context and a connected
      processor are created before the connection is awaited: when the
      connection then fails, none of them is released. */
  method StartLanguageTutorSession(
    isMuted: bool,
    connection: Result<Browser.LiveSession, string>,
    microphone: Result<Browser.MediaStream, string>)
    returns (player: Player, r: Result<Browser.Handles, string>)
    modifies if microphone.Success? then Browser.TrackSet(microphone.value.tracks) else {}
    ensures fresh(player) && player.Valid() && player.nextStartTime == 0.0 && player.sources == {}
    ensures microphone.Failure? ==> r == Failure(microphone.error)
    ensures microphone.Success? ==>
      forall t :: t in microphone.value.tracks ==> t.enabled == !isMuted && t.stopped == old(t.stopped)
    ensures microphone.Success? && connection.Failure? ==> r == Failure(connection.error)
    ensures microphone.Success? && connection.Success? ==>
      && r.Success? && r.value.session == connection.value && r.value.mediaStream == microphone.value
      && fresh(r.value.audioContext) && r.value.audioContext.sampleRate == InputSampleRate
      && r.value.audioContext.state == Browser.Running
      && fresh(r.value.scriptProcessor) && r.value.scriptProcessor.connected
  {
    player := new Player();
    if microphone.Failure? {
      return player, Failure(microphone.error);
    }
    var stream := microphone.value;
    Browser.SetEnabled(stream.tracks, !isMuted);
    var inputAudioContext := new Browser.AudioContext(InputSampleRate);
    var scriptProcessor := new Browser.ScriptProcessor();
    if connection.Failure? {
      return player, Failure(connection.error);
    }
    r := Success(Browser.Handles(connection.value, stream, inputAudioContext, scriptProcessor));
  }
}
