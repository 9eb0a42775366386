/** The App component of App.tsx: its state (settings, session flag,
    conversation, mute flag), the four resource handles it keeps in refs, the
    two transcription buffers, and the handlers that change them. Each handler
    is one atomic step; React's batched `setState` updaters are applied in the
    order the handler issues them. */
module AppModel {
  import opened Wrappers
  import opened Types
  import Browser
  import Transcript

  /** The entry `handleError` appends. */
  const ErrorText: string := "An error occurred. Session ended."

  /** The start of the entry a failed start leaves; the error's message follows. */
  const StartFailureText: string := "Failed to start session. Please check microphone permissions. Error: "

  const DefaultSettings: Settings := Settings("Spanish", "English", "Adult (25-64)")

  /** The settings object as its keys and values. */
  function AsMap(s: Settings): map<string, string> {
    map["targetLanguage" := s.targetLanguage, "nativeLanguage" := s.nativeLanguage, "ageGroup" := s.ageGroup]
  }

  /** The keys a partial settings object carries, with their values. */
  function Carried(patch: SettingsPatch): map<string, string> {
    (if patch.targetLanguage.Some? then map["targetLanguage" := patch.targetLanguage.value] else map[]) +
    (if patch.nativeLanguage.Some? then map["nativeLanguage" := patch.nativeLanguage.value] else map[]) +
    (if patch.ageGroup.Some? then map["ageGroup" := patch.ageGroup.value] else map[])
  }

  /** `{ ...settings, ...newSettings }`: a key the patch carries overrides,
      every other key keeps its old value, which is the right-biased union of
      the two objects' entries. */
  function MergeSettings(s: Settings, patch: SettingsPatch): (r: Settings)
    ensures AsMap(r) == AsMap(s) + Carried(patch)
    ensures patch.targetLanguage.Some? ==> r.targetLanguage == patch.targetLanguage.value
    ensures patch.targetLanguage.None? ==> r.targetLanguage == s.targetLanguage
    ensures patch.nativeLanguage.Some? ==> r.nativeLanguage == patch.nativeLanguage.value
    ensures patch.nativeLanguage.None? ==> r.nativeLanguage == s.nativeLanguage
    ensures patch.ageGroup.Some? ==> r.ageGroup == patch.ageGroup.value
    ensures patch.ageGroup.None? ==> r.ageGroup == s.ageGroup
  {
    Settings(
      if patch.targetLanguage.Some? then patch.targetLanguage.value else s.targetLanguage,
      if patch.nativeLanguage.Some? then patch.nativeLanguage.value else s.nativeLanguage,
      if patch.ageGroup.Some? then patch.ageGroup.value else s.ageGroup)
  }

  /** One object spread after another: the later key wins. */
  function Later(first: Option<string>, second: Option<string>): Option<string> {
    if second.Some? then second else first
  }

  /** Applying two patches in turn is applying their spread once; applying the
      same patch twice is applying it once; an empty patch changes nothing. */
  lemma MergeComposes(s: Settings, p: SettingsPatch, q: SettingsPatch)
    ensures MergeSettings(MergeSettings(s, p), q) ==
      MergeSettings(s, SettingsPatch(Later(p.targetLanguage, q.targetLanguage),
                                     Later(p.nativeLanguage, q.nativeLanguage),
                                     Later(p.ageGroup, q.ageGroup)))
    ensures MergeSettings(MergeSettings(s, p), p) == MergeSettings(s, p)
    ensures MergeSettings(s, SettingsPatch(None, None, None)) == s
  {
  }

  class App {
    var settings: Settings
    var sessionState: SessionState
    var conversation: seq<Message>
    var isMuted: bool

    var session: Browser.LiveSession?
    var mediaStream: Browser.MediaStream?
    var audioProcessor: Browser.ScriptProcessor?
    var inputAudioContext: Browser.AudioContext?

    var inputTranscription: string
    var outputTranscription: string

    /** The state the component mounts with. */
    constructor ()
      ensures settings == DefaultSettings && sessionState == Idle && conversation == [] && !isMuted
      ensures session == null && mediaStream == null && audioProcessor == null && inputAudioContext == null
      ensures inputTranscription == "" && outputTranscription == ""
    {
      settings := DefaultSettings;
      sessionState := Idle;
      conversation := [];
      isMuted := false;
      session, mediaStream, audioProcessor, inputAudioContext := null, null, null, null;
      inputTranscription, outputTranscription := "", "";
    }

    /** The part of the state `handleMessage` works on. */
    function Snapshot(): Transcript.State
      reads this
    {
      Transcript.State(conversation, inputTranscription, outputTranscription)
    }

    /** The browser objects the handles point to, which teardown changes. */
    ghost function Resources(): set<object>
      reads this
    {
      var s: set<object> := if session == null then {} else {session};
      var m: set<object> := if mediaStream == null then {} else Browser.TrackSet(mediaStream.tracks);
      var p: set<object> := if audioProcessor == null then {} else {audioProcessor};
      var c: set<object> := if inputAudioContext == null then {} else {inputAudioContext};
      s + m + p + c
    }

    /** Nothing is left to release: every ref is null, except an input context
        that is already closed. */
    ghost predicate TornDown()
      reads this, inputAudioContext
    {
      session == null && mediaStream == null && audioProcessor == null &&
      (inputAudioContext != null ==> inputAudioContext.state == Browser.Closed)
    }

    /** `handleSettingsChange`; writing the result to local storage is left out. */
    method HandleSettingsChange(patch: SettingsPatch)
      modifies this`settings
      ensures settings == MergeSettings(old(settings), patch)
    {
      settings := MergeSettings(settings, patch);
    }

    /** `handleMessage`: fold a transcription fragment into its buffer and the
        conversation, then clear both buffers on `turnComplete`. */
    method HandleMessage(message: ServerMessage)
      modifies this`conversation, this`inputTranscription, this`outputTranscription
      ensures Snapshot() == Transcript.Step(old(Snapshot()), message)
    {
      match Transcript.OutputDelta(message) {
        case Some(text) =>
          outputTranscription := outputTranscription + text;
          conversation := Transcript.Merge(conversation, Coach, outputTranscription);
        case None =>
          match Transcript.InputDelta(message) {
            case Some(text) =>
              inputTranscription := inputTranscription + text;
              conversation := Transcript.Merge(conversation, User, inputTranscription);
            case None =>
          }
      }
      if Transcript.TurnComplete(message) {
        inputTranscription := "";
        outputTranscription := "";
      }
    }

    /** The teardown `stopSession` performs on the handles it held at the
        start (`s`, `m`, `p`, `c`), relating the state before it to the state
        after: the session, stream and processor refs are null; the context
        ref is null unless that context was already closed; the session is
        closed, every track stopped with its `enabled` kept, the processor
        disconnected and the context closed; the flag is IDLE; the settings,
        the mute flag and both buffers are unchanged. */
    twostate predicate ReleasedAsStopSession(s: Browser.LiveSession?, m: Browser.MediaStream?,
                                             p: Browser.ScriptProcessor?, c: Browser.AudioContext?)
      reads this, s, p, c, if m == null then {} else Browser.TrackSet(m.tracks)
    {
      && session == null && mediaStream == null && audioProcessor == null
      && inputAudioContext == (if c != null && old(c.state) == Browser.Closed then c else null)
      && (s != null ==> s.closed)
      && (m != null ==> forall t :: t in m.tracks ==> t.stopped && t.enabled == old(t.enabled))
      && (p != null ==> !p.connected)
      && (c != null ==> c.state == Browser.Closed)
      && sessionState == Idle && TornDown()
      && settings == old(settings) && isMuted == old(isMuted)
      && inputTranscription == old(inputTranscription) && outputTranscription == old(outputTranscription)
    }

    /** `stopSession`: close the session, stop every capture track, disconnect
        the processor and close the input context unless it is already closed;
        each ref released is nulled. Nothing else changes, so a second call
        finds everything torn down and only sets the flag to IDLE again. */
    method StopSession()
      modifies this, Resources()
      ensures ReleasedAsStopSession(old(session), old(mediaStream), old(audioProcessor), old(inputAudioContext))
      ensures conversation == old(conversation)
    {
      if session != null {
        session.closed := true;
        session := null;
      }
      if mediaStream != null {
        Browser.StopAll(mediaStream.tracks);
        mediaStream := null;
      }
      if audioProcessor != null {
        audioProcessor.connected := false;
        audioProcessor := null;
      }
      if inputAudioContext != null && inputAudioContext.state != Browser.Closed {
        inputAudioContext.state := Browser.Closed;
        inputAudioContext := null;
      }
      sessionState := Idle;
    }

    /** `handleError`: one `system` entry, then the teardown of `stopSession`. */
    method HandleError()
      modifies this, Resources()
      ensures conversation == old(conversation) + [Message(System, ErrorText)]
      ensures ReleasedAsStopSession(old(session), old(mediaStream), old(audioProcessor), old(inputAudioContext))
    {
      conversation := conversation + [Message(System, ErrorText)];
      StopSession();
    }

    /** `handleClose`: the teardown of `stopSession`, with no entry. */
    method HandleClose()
      modifies this, Resources()
      ensures conversation == old(conversation)
      ensures ReleasedAsStopSession(old(session), old(mediaStream), old(audioProcessor), old(inputAudioContext))
    {
      StopSession();
    }

    /** The part of `startSession` before it awaits the service: flag
        CONNECTING, empty conversation, empty buffers. */
    method BeginStartSession()
      modifies this`sessionState, this`conversation, this`inputTranscription, this`outputTranscription
      ensures sessionState == Connecting && conversation == []
      ensures inputTranscription == "" && outputTranscription == ""
    {
      sessionState := Connecting;
      conversation := [];
      inputTranscription := "";
      outputTranscription := "";
    }

    /** The part of `startSession` after the service settles: on success keep
        the four handles and go ACTIVE; on failure the conversation becomes the
        single failure entry and the flag IDLE, and the refs are left alone. */
    method FinishStartSession(outcome: Result<Browser.Handles, string>)
      modifies this`session, this`mediaStream, this`inputAudioContext, this`audioProcessor,
               this`sessionState, this`conversation
      ensures outcome.Success? ==>
        && session == outcome.value.session && mediaStream == outcome.value.mediaStream
        && inputAudioContext == outcome.value.audioContext && audioProcessor == outcome.value.scriptProcessor
        && sessionState == Active && conversation == old(conversation)
      ensures outcome.Failure? ==>
        && conversation == [Message(System, StartFailureText + outcome.error)]
        && sessionState == Idle
        && session == old(session) && mediaStream == old(mediaStream)
        && inputAudioContext == old(inputAudioContext) && audioProcessor == old(audioProcessor)
    {
      match outcome {
        case Success(handles) =>
          session := handles.session;
          mediaStream := handles.mediaStream;
          inputAudioContext := handles.audioContext;
          audioProcessor := handles.scriptProcessor;
          sessionState := Active;
        case Failure(message) =>
          conversation := [Message(System, StartFailureText + message)];
          sessionState := Idle;
      }
    }

    /** `toggleMute`: flip the flag and set every capture track's `enabled`
        to the OLD flag, which is the negation of the new one. The session,
        its flag and the stream itself are left as they were. */
    method ToggleMute()
      modifies this`isMuted, if mediaStream == null then {} else Browser.TrackSet(mediaStream.tracks)
      ensures isMuted == !old(isMuted)
      ensures mediaStream != null ==>
        forall t :: t in mediaStream.tracks ==> t.enabled == !isMuted && t.stopped == old(t.stopped)
      ensures sessionState == old(sessionState) && session == old(session) && mediaStream == old(mediaStream)
    {
      var wasMuted := isMuted;
      isMuted := !isMuted;
      if mediaStream != null {
        Browser.SetEnabled(mediaStream.tracks, wasMuted);
      }
    }
  }
}
