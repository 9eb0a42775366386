# Lingua Coach: transcript reducer, session lifecycle and playback scheduler

A Dafny model of the local logic of a browser language-tutor app that streams
microphone audio to a live speech session and renders a live transcript. The
speech itself, the streaming protocol and the browser audio graph belong to an
external SDK and the browser; what the app does on its own is modelled here:

- **App component** (`AppModel.App`, App.tsx). The conversation, the two running
  transcription buffers, the IDLE/CONNECTING/ACTIVE flag, the mute flag and the
  four resource handles (live session, capture stream, script processor, input
  audio context) are fields of a class. Its methods are the handlers:
  `handleMessage`, `startSession` (split at its `await`), `stopSession`,
  `handleError`, `handleClose`, `toggleMute` and `handleSettingsChange`.
- **Transcript reducer** (`Transcript`). `handleMessage` folds one server message
  into the transcript. The fold is also given as a pure function `Step`, which
  `App.HandleMessage` is proved to follow. The lemmas say what one step and a
  streaming turn do.
- **Playback scheduler** (`LiveService.Player`, services/geminiService.ts). The
  `onmessage` closure keeps a cursor `nextStartTime` and a set of playing
  sources. Each audio chunk starts at `max(cursor, clock)` and moves the cursor
  past its end. `interrupted` stops every tracked source, empties the set and
  resets the cursor to 0. The class invariant says that every tracked source
  ends no later than the cursor, so no newly scheduled chunk overlaps one that
  is still playing.
- **Session start** (`LiveService.StartLanguageTutorSession`). The SDK connect
  call and the microphone request are given as outcomes. The method models the
  order in which they are awaited and what gets wired in between.
- **Codec helpers** (`Codec`). These are `decode` and `encode` between binary
  strings and bytes, `createBlob` (float samples to 16-bit PCM, then bytes,
  then base64), and `decodeAudioData` (bytes to 16-bit samples, de-interleaved
  per channel).

Browser objects are small classes in `Browser`, holding only the state the app
reads or changes. Time is exact `real` seconds. The output context's clock
(`currentTime`) is a parameter of each message. `atob` and `btoa` are passed in
as functions, and `atob` returns `None` where it would throw. Exceptions thrown
by the browser APIs the code calls are values of `Types.JsError`.

Behaviour of the code that a reader might not expect, which the model keeps:

- **Turn boundaries.** `turnComplete` clears both transcription buffers, but
  the last-entry test (App.tsx:48, App.tsx:60) checks only the speaker. So when
  the same speaker goes on after a turn ends, the new fragment replaces the text
  of that speaker's previous entry instead of starting a new one
  (`Transcript.SameSpeakerAfterTurnEnd`).
- **Failed start.** A failed start goes from CONNECTING back to IDLE, and the
  refs stay as they were (App.tsx:124-128).
- **Failed connection.** When the microphone was granted but the connection
  fails, the capture tracks, the input context and the processor that were
  created are not released (`LiveService.StartLanguageTutorSession`).
- **Failed microphone.** When the microphone request fails but the connect
  call (services/geminiService.ts:90) succeeds, the session is never returned:
  `sessionRef` never holds it, so `stopSession` never closes it, and its
  `onmessage`, `onerror` and `onclose` stay wired to the app's handlers. In the
  model the connected session is outside the frame of
  `LiveService.StartLanguageTutorSession`, and nothing closes it.
- **Codec round trip.** `decode(encode(b)) == b` rests on the browser's base64
  pair: it is proved for any `atob` that undoes `btoa` on binary strings (every
  code below 256), which are the only strings `encode` hands to `btoa`.

## Model

| member | source | states |
|---|---|---|
| `Types.AudioData` | services/geminiService.ts:96 | reading the inline audio throws a TypeError exactly when a model turn is present without `parts`; it is undefined exactly when the message, the model turn, the first part, its inline data or its data is missing |
| `Transcript.Step` | App.tsx:41-72 | one message keeps the conversation's length or adds exactly one entry; a message with no transcription leaves the conversation as it was; `turnComplete` leaves both buffers empty |
| `Transcript.Merge` | App.tsx:45-53 | the updater leaves every entry before the last untouched and makes the last entry `(speaker, text)`; the list keeps its length when the old last entry had that speaker and grows by exactly one otherwise |
| `Transcript.CoachDelta` | App.tsx:42-53 | a coach fragment sets the output buffer to old buffer ++ fragment; if the last entry is the coach's, the length is unchanged, only the last entry changes and its text becomes the buffer; otherwise exactly one coach entry with the buffer is appended; the input buffer is untouched (both buffers end empty when the message also completes the turn) |
| `Transcript.UndefinedOutputText` | App.tsx:42-53 | an output transcription without `text` appends the text "undefined" (JavaScript `+=` on an undefined operand): the output buffer becomes old buffer ++ "undefined" (empty when the turn also completes), and the coach's open entry, or a new one, shows old buffer ++ "undefined" |
| `Transcript.UserDelta` | App.tsx:54-65 | a user fragment in a message with no output transcription does the same with the input buffer and speaker `user`, leaving the output buffer alone |
| `Transcript.OutputShadowsInput` | App.tsx:42-66 | a message with both transcriptions applies only the output one: the input buffer is unchanged and every non-coach entry stays where and as it was |
| `Transcript.NoDelta` | App.tsx:68-71 | a message with no transcription keeps the conversation; with `turnComplete` it empties both buffers, without it nothing changes |
| `Transcript.SystemNeverExtended` | App.tsx:45-65 | after a `system` entry, any message keeps all existing entries and adds at most one, so a system entry is never rewritten |
| `Transcript.SpeakerSwitch` | App.tsx:57-64 | a user fragment after a coach entry always appends a new user entry |
| `Transcript.SameSpeakerAfterTurnEnd` | App.tsx:44-71 | after `turnComplete`, a coach fragment when the last entry is the coach's replaces that entry's text with just the fragment; no entry is created, and the previous turn's text is lost |
| `Transcript.CoachFragmentStep` | App.tsx:42-53 | one coach fragment leaves the entries before the coach's open entry untouched and makes the last entry the coach's, holding the old output buffer plus the fragment; the input buffer is unchanged |
| `Transcript.CoachTurnAccumulates` | App.tsx:42-53 | any non-empty run of coach fragments with no turn end ends with one coach entry whose text is the old buffer plus all fragments; entries before the open coach entry are untouched and the input buffer is unchanged |
| `Transcript.StreamIntoEmpty` | App.tsx:42-53 | any non-empty run of coach fragments streamed into an empty transcript leaves exactly one entry: the coach's, holding the concatenation of the fragments |
| `Transcript.HolaQueTal` | App.tsx:42-53 | the fragments "Hola", " que", " tal" streamed into an empty transcript give exactly the single entry (coach, "Hola que tal") |
| `AppModel.MergeSettings` | App.tsx:36 | read as key/value maps, the merged settings are the old entries overridden by the entries the patch carries: the right-biased union that object spread computes |
| `AppModel.MergeComposes` | App.tsx:35-39 | two successive changes equal one change by their spread; repeating a change is the same as making it once; an empty change keeps the settings |
| `AppModel.App.constructor` | App.tsx:11-26 | the component starts IDLE, unmuted, with the default settings, an empty conversation, empty buffers and every handle null |
| `AppModel.App.HandleSettingsChange` | App.tsx:35-39 | the settings become the merge of the old settings with the patch |
| `AppModel.App.HandleMessage` | App.tsx:41-72 | the conversation and both buffers afterwards are the reducer step `Transcript.Step` applied to their old values |
| `AppModel.App.StopSession` | App.tsx:74-92 | afterwards the session, stream and processor refs are null; the context ref is null unless the context was already closed; the session is closed, every track stopped, the processor disconnected and the context closed; the flag is IDLE; conversation, buffers, settings and mute are unchanged; nothing outside the held resources is modified, so a second call changes nothing but re-setting IDLE |
| `AppModel.App.HandleError` | App.tsx:94-98 | exactly one `system` entry with the fixed error text is appended, then every resource is released as by `StopSession`: session, stream and processor refs null, the context ref null unless the context was already closed, the session closed, every track stopped with its `enabled` kept, the processor disconnected, the context closed; the flag is IDLE and buffers, settings and mute are unchanged |
| `AppModel.App.HandleClose` | App.tsx:100-103 | every resource is released as by `StopSession` (the same refs nulled, the context ref kept only when already closed, tracks stopped with `enabled` kept), the flag is IDLE and the conversation, buffers, settings and mute are unchanged |
| `AppModel.App.BeginStartSession` | App.tsx:105-109 | the flag becomes CONNECTING and the conversation and both buffers become empty |
| `AppModel.App.FinishStartSession` | App.tsx:111-128 | on success all four handles are stored and the flag is ACTIVE; on failure the conversation is exactly one `system` entry with the failure text followed by the error message, the flag is IDLE and the refs are unchanged |
| `AppModel.App.ToggleMute` | App.tsx:131-138 | the mute flag flips; every track of the held stream gets `enabled` equal to the old flag, that is `enabled == !isMuted`, and no track is stopped; session state, session and stream are unchanged |
| `Browser.SetEnabled` | App.tsx:134-136 | every track in the list ends with the given `enabled` value and keeps its stopped state |
| `Browser.StopAll` | App.tsx:80 | every track in the list ends stopped and keeps its `enabled` value |
| `Browser.Duration` | services/geminiService.ts:105 | a buffer's duration is non-negative and times the sample rate gives its frame count |
| `Codec.Decode` | services/geminiService.ts:6-14 | when `atob` throws the result is InvalidCharacterError; otherwise the bytes have the binary string's length and byte i is char code i modulo 256 |
| `Codec.Encode` | services/geminiService.ts:35-42 | the result is `btoa` of the string whose char i has code `bytes[i]` |
| `Codec.BytesOfBinaryOf` | services/geminiService.ts:35-42 | turning bytes into a binary string and back gives the same bytes |
| `Codec.BinaryOfBytesOf` | services/geminiService.ts:6-14 | on a binary string whose codes are all below 256, turning it into bytes and back gives the same string |
| `Codec.EncodeDecodeRoundTrip` | services/geminiService.ts:6-14 | when `atob` undoes `btoa` on every binary string (all codes below 256), decoding what `encode` produced succeeds and gives back the original bytes |
| `Codec.DecodeEncodeRoundTrip` | services/geminiService.ts:35-42 | when `btoa` undoes `atob` on a text `atob` accepts, encoding the bytes `decode` produced gives back that text |
| `Codec.Trunc` | services/geminiService.ts:48 | truncation toward zero: the result lies within 1 of the input, between 0 and the input |
| `Codec.ToInt16` | services/geminiService.ts:48 | the stored sample is in the 16-bit signed range, congruent to the truncated value modulo 2^16, and equal to it when it is already in range |
| `Codec.Pcm` | services/geminiService.ts:45-49 | one 16-bit sample per input sample |
| `Codec.SampleQuantization` | services/geminiService.ts:48 | a sample in [-1, 1) is stored without wrap-around and read back (divided by 32768) within one quantization step, 1/32768 |
| `Codec.FullScaleWraps` | services/geminiService.ts:48 | with no clamping, full scale 1.0 wraps to -32768 |
| `Codec.UnpackPack` | services/geminiService.ts:29 | a 16-bit sample scaled to [-1, 1) and packed again is the same sample |
| `Codec.LittleEndian` | services/geminiService.ts:51 | the byte view of 16-bit samples has two bytes per sample |
| `Codec.Int16View` | services/geminiService.ts:22 | viewing bytes as 16-bit samples is a RangeError exactly when the byte count is odd, and gives half as many samples as bytes otherwise |
| `Codec.SplitJoin` | services/geminiService.ts:51 | the low and high byte of a sample join back into that sample |
| `Codec.JoinSplit` | services/geminiService.ts:22 | the sample two bytes form splits back into those two bytes |
| `Codec.ViewOfLittleEndian` | services/geminiService.ts:22 | viewing the bytes of a sample buffer as samples gives back exactly those samples |
| `Codec.LittleEndianOfView` | services/geminiService.ts:22 | every even-length byte buffer is exactly the byte view of the samples it is read as |
| `Codec.CreateBlob` | services/geminiService.ts:44-54 | the MIME type is always `audio/pcm;rate=16000`, and the data is `btoa` of the byte view of one 16-bit sample per input sample |
| `Codec.InterleavedIndexInBounds` | services/geminiService.ts:28-29 | for every whole frame i and channel c, the read index `i*numChannels + c` is inside the samples |
| `Codec.ChannelSamples` | services/geminiService.ts:26-31 | each channel has as many samples as there are whole frames |
| `Codec.EverySampleRead` | services/geminiService.ts:26-31 | when the sample count is a multiple of the channel count, sample k is read exactly as channel `k % numChannels`, frame `k / numChannels` |
| `Codec.FrameCount` | services/geminiService.ts:22-24 | an odd byte count gives RangeError; fewer samples than channels gives NotSupportedError; otherwise a positive number of whole frames whose samples fit in the buffer |
| `Codec.DecodeAudioData` | services/geminiService.ts:16-33 | the errors are those of the frame count; on success the buffer has the requested channel count and rate, length equal to the frame count, and channel c, frame i holds sample `i*numChannels + c` divided by 32768 |
| `LiveService.Max` | services/geminiService.ts:98 | the result is one of the two arguments and at least both |
| `LiveService.AudioOutcomeOf` | services/geminiService.ts:96-99 | the audio part fails to read exactly when the inline data cannot be read; there is no audio exactly when the data is missing or empty; a chunk that plays has a positive duration |
| `LiveService.Player.constructor` | services/geminiService.ts:84-88 | the scheduler starts with cursor 0 and no sources, and its invariant holds |
| `LiveService.Player.Play` | services/geminiService.ts:100-106 | the new source starts at the cursor, the cursor advances by its duration, the source is added to the set, and every source already tracked ends no later than the new one starts |
| `LiveService.Player.OnEnded` | services/geminiService.ts:103 | the ended source, and only it, leaves the set, and the invariant holds |
| `LiveService.Player.Interrupt` | services/geminiService.ts:109-116 | every tracked source is stopped, the set is empty and the cursor is 0 |
| `LiveService.Player.OnMessage` | services/geminiService.ts:94-117 | audio is handled before the interrupt: a playable chunk starts at max(cursor, clock) and the cursor becomes its end, and it stays tracked unless the message also interrupts; an interrupt stops every tracked source and leaves the set empty and the cursor 0; with neither, nothing changes; a read error changes nothing, and a decode error only raises the cursor to the clock and skips the interrupt; sources already tracked keep their start times, and they keep their stopped state unless an interrupt is handled |
| `LiveService.StartTimes` | services/geminiService.ts:98-105 | an uninterrupted run of chunks gets one start time per chunk |
| `LiveService.StartTimeAt` | services/geminiService.ts:98-105 | every chunk after the first starts at the larger of the previous chunk's end and its own arrival clock |
| `LiveService.StartsAfterEarlierEnds` | services/geminiService.ts:98-105 | with non-negative durations, every later chunk starts no earlier than any earlier chunk ends |
| `LiveService.StartTimesGapless` | services/geminiService.ts:98-105 | with non-negative durations, start times never decrease, no two chunks overlap, every chunk starts no earlier than its arrival and the starting cursor, and each start is the max of the previous end and the clock |
| `LiveService.StartTimesSnoc` | services/geminiService.ts:98-105 | one more chunk at the end of a run starts at the larger of the run's final cursor and its clock, and moves the cursor past its end |
| `LiveService.ScheduleRun` | services/geminiService.ts:94-106 | a run of `onmessage` calls that each carry playable audio and no interrupt keeps the scheduler invariant, starts source k exactly at `StartTimes(...)[k]` of the chunks delivered, and leaves the cursor at the run's end |
| `LiveService.ResumeAtClock` | services/geminiService.ts:109-116 | from the reset cursor 0, the next chunk starts exactly at the clock, which is not negative |
| `LiveService.PlayAfterInterrupt` | services/geminiService.ts:96-116 | an interrupting message followed by one with playable audio starts the new chunk exactly at the clock it arrives at; with no second interrupt it is the only tracked source and the cursor ends at clock + its duration |
| `LiveService.StartLanguageTutorSession` | services/geminiService.ts:75-150 | the scheduler starts empty; a microphone failure wins; once granted, every track is enabled unless muted; a failed connection is reported without releasing anything; otherwise the handles are the session, the stream, a fresh running 16 kHz input context and a fresh connected processor |

## Left out

- `atob` and `btoa` are browser base64 functions. They are parameters, so base64 itself is not modelled.
- Settings persistence is not modelled: the `localStorage` read at mount (App.tsx:28-33), the write in `handleSettingsChange`, and `JSON.parse`/`JSON.stringify`.
- `getSystemInstruction` is a text template and is not modelled.
- The connect configuration is not modelled, and neither is anything the SDK does with the session.
- Not modelled: the `onaudioprocess` callback, which sends each blob through `sessionPromise.then`. Only `createBlob`, which builds the blob, is modelled.
- The output audio context and its gain node are not modelled, and neither are the `connect` calls of the audio graph. Nothing in the code closes the output context.
- Each `onmessage` call is one atomic step. The model does not capture other messages running while a call awaits decoding at services/geminiService.ts:99. Such a message could reset the cursor between the `max` and the start.
- React's render timing is not modelled. Each handler reads the state it was called on and applies its `setState` updates at once, in order. So the model does not capture the stale-closure reads of `isMuted` and `settings`. Nor does it capture that the `setConversation` updaters (App.tsx:45-53, App.tsx:57-65) read the transcription buffers when React runs them, not when they are queued: if a later `turnComplete` (App.tsx:68-71) empties a buffer before a queued updater runs, that entry's text becomes "". The model evaluates each updater when its handler runs.
- The code mutates the last message in place (App.tsx:49), and that object is shared with the previous conversation array. The model uses values, so this aliasing is not captured.
- `AudioContext.close()` is asynchronous, but the model's context state becomes closed at once.
- NaN and infinite samples are not modelled; ToInt16 is defined on finite numbers, where it is exact on reals.
- `createBuffer`'s other nominal ranges are not modelled. `Codec.DecodeAudioData` requires a positive channel count and sample rate; the only call passes 1 and 24000.
- The byte view of an `Int16Array` is taken to be little-endian; real endianness is platform behaviour.
- JavaScript strings are UTF-16 code units. Units in the surrogate range are not modelled, and a binary string from `atob` never holds them.
- `LiveService.StartLanguageTutorSession`: the connect call is made first and awaited last; the model does not capture that a connect failure after a microphone failure becomes an unhandled rejection.
- A stream is a single list of tracks: `stopSession` stops `getTracks()` and `toggleMute` sets `getAudioTracks()`, which are the same tracks for the audio-only stream the microphone request returns.
- Console logging is not modelled.
- The presentation components (ControlPanel, SettingsPanel, ConversationView) are not part of this model.
