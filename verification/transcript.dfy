/** The transcript reducer of App.tsx (`handleMessage`), as a function from
    the transcript state and one server message to the next state. The class
    in AppModel runs it step by step; the lemmas here say what it does. */
module Transcript {
  import opened Wrappers
  import opened Types

  /** The conversation and the two running transcription buffers. */
  datatype State = State(conversation: seq<Message>, input: string, output: string)

  /** The last entry exists and has this speaker, so a delta rewrites it. */
  predicate ContinuesLast(conversation: seq<Message>, speaker: Speaker) {
    conversation != [] && conversation[|conversation| - 1].speaker == speaker
  }

  /** The conversation without the entry a delta for `speaker` would rewrite. */
  function Settled(conversation: seq<Message>, speaker: Speaker): seq<Message> {
    if ContinuesLast(conversation, speaker) then conversation[..|conversation| - 1] else conversation
  }

  /** The `setConversation` updater: if the last entry has `speaker`, its text
      becomes `text`; otherwise a new entry is appended. Either way the last
      entry is then `(speaker, text)` and every entry before it is untouched. */
  function Merge(conversation: seq<Message>, speaker: Speaker, text: string): (r: seq<Message>)
    ensures |r| == if ContinuesLast(conversation, speaker) then |conversation| else |conversation| + 1
    ensures r[|r| - 1] == Message(speaker, text)
    ensures r[..|r| - 1] == conversation[..|r| - 1]
  {
    if ContinuesLast(conversation, speaker) then
      conversation[..|conversation| - 1] + [Message(speaker, text)]
    else
      conversation + [Message(speaker, text)]
  }

  /** The text an output transcription appends, when the message has one. */
  function OutputDelta(m: ServerMessage): Option<string> {
    if m.serverContent.Some? && m.serverContent.value.outputTranscription.Some? then
      Some(AppendedText(m.serverContent.value.outputTranscription.value))
    else None
  }

  /** The text an input transcription appends, when the message has one. */
  function InputDelta(m: ServerMessage): Option<string> {
    if m.serverContent.Some? && m.serverContent.value.inputTranscription.Some? then
      Some(AppendedText(m.serverContent.value.inputTranscription.value))
    else None
  }

  predicate TurnComplete(m: ServerMessage) {
    m.serverContent.Some? && m.serverContent.value.turnComplete
  }

  /** One `handleMessage` call. The output transcription wins over the input
      one (the code tests them with `else if`); `turnComplete` clears both
      buffers after the delta is applied. */
  function Step(t: State, m: ServerMessage): (r: State)
    ensures |t.conversation| <= |r.conversation| <= |t.conversation| + 1
    ensures OutputDelta(m).None? && InputDelta(m).None? ==> r.conversation == t.conversation
    ensures TurnComplete(m) ==> r.input == "" && r.output == ""
  {
    var applied :=
      match OutputDelta(m)
      case Some(d) =>
        var output := t.output + d;
        State(Merge(t.conversation, Coach, output), t.input, output)
      case None =>
        match InputDelta(m)
        case Some(d) =>
          var input := t.input + d;
          State(Merge(t.conversation, User, input), input, t.output)
        case None => t;
    if TurnComplete(m) then applied.(input := "", output := "") else applied
  }

  /** Several `handleMessage` calls in order. */
  function Steps(t: State, ms: seq<ServerMessage>): State
    decreases |ms|
  {
    if ms == [] then t else Steps(Step(t, ms[0]), ms[1..])
  }

  // ---------------------------------------------------------------------------
  // One message

  /** A coach delta extends the output buffer; the coach's last entry is
      rewritten to the whole buffer, or one new coach entry is appended. The
      input buffer is left alone whatever else the message carries. */
  lemma CoachDelta(t: State, m: ServerMessage, d: string)
    requires OutputDelta(m) == Some(d)
    ensures var r := Step(t, m);
      && r.output == (if TurnComplete(m) then "" else t.output + d)
      && r.input == (if TurnComplete(m) then "" else t.input)
      && (ContinuesLast(t.conversation, Coach) ==>
            |r.conversation| == |t.conversation|
            && r.conversation[..|t.conversation| - 1] == t.conversation[..|t.conversation| - 1]
            && r.conversation[|t.conversation| - 1] == Message(Coach, t.output + d))
      && (!ContinuesLast(t.conversation, Coach) ==>
            r.conversation == t.conversation + [Message(Coach, t.output + d)])
  {
  }

  /** An output transcription without `text`: JavaScript's `+=` appends the
      text "undefined" to the buffer, and that is what the coach's entry
      shows. */
  lemma UndefinedOutputText(t: State, m: ServerMessage)
    requires m.serverContent.Some? && m.serverContent.value.outputTranscription == Some(Transcription(None))
    ensures var r := Step(t, m);
      && r.output == (if TurnComplete(m) then "" else t.output + "undefined")
      && r.conversation == Settled(t.conversation, Coach) + [Message(Coach, t.output + "undefined")]
  {
    assert OutputDelta(m) == Some("undefined");
  }

  /** A user delta, in a message with no output transcription, does the same
      with the input buffer and the speaker `user`. */
  lemma UserDelta(t: State, m: ServerMessage, d: string)
    requires OutputDelta(m).None? && InputDelta(m) == Some(d)
    ensures var r := Step(t, m);
      && r.input == (if TurnComplete(m) then "" else t.input + d)
      && r.output == (if TurnComplete(m) then "" else t.output)
      && (ContinuesLast(t.conversation, User) ==>
            |r.conversation| == |t.conversation|
            && r.conversation[..|t.conversation| - 1] == t.conversation[..|t.conversation| - 1]
            && r.conversation[|t.conversation| - 1] == Message(User, t.input + d))
      && (!ContinuesLast(t.conversation, User) ==>
            r.conversation == t.conversation + [Message(User, t.input + d)])
  {
  }

  /** When a message carries both transcriptions, only the output one is
      applied: every entry that is not the coach's stays as it was. */
  lemma OutputShadowsInput(t: State, m: ServerMessage)
    requires OutputDelta(m).Some? && InputDelta(m).Some?
    ensures var r := Step(t, m);
      && (!TurnComplete(m) ==> r.input == t.input)
      && forall i :: 0 <= i < |r.conversation| && r.conversation[i].speaker != Coach ==>
           i < |t.conversation| && r.conversation[i] == t.conversation[i]
  {
  }

  /** A message without transcriptions leaves the conversation alone; its
      `turnComplete` flag, if set, empties both buffers. */
  lemma NoDelta(t: State, m: ServerMessage)
    requires OutputDelta(m).None? && InputDelta(m).None?
    ensures Step(t, m).conversation == t.conversation
    ensures Step(t, m) == if TurnComplete(m) then State(t.conversation, "", "") else t
  {
  }

  /** `system` entries are never extended: after one, any delta appends. */
  lemma SystemNeverExtended(t: State, m: ServerMessage)
    requires t.conversation != [] && t.conversation[|t.conversation| - 1].speaker == System
    ensures var r := Step(t, m);
      && |t.conversation| <= |r.conversation| <= |t.conversation| + 1
      && r.conversation[..|t.conversation|] == t.conversation
  {
  }

  /** A user delta right after coach speech starts a new entry. */
  lemma SpeakerSwitch(t: State, m: ServerMessage, d: string)
    requires t.conversation != [] && t.conversation[|t.conversation| - 1].speaker == Coach
    requires OutputDelta(m).None? && InputDelta(m) == Some(d)
    ensures Step(t, m).conversation == t.conversation + [Message(User, t.input + d)]
  {
  }

  // ---------------------------------------------------------------------------
  // Turn boundaries

  /** The message that only ends a turn. */
  function TurnEnd(): ServerMessage {
    ServerMessage(Some(ServerContent(None, None, None, true, false)))
  }

  /** A message that only carries a coach transcription fragment. */
  function CoachFragment(text: string): ServerMessage {
    ServerMessage(Some(ServerContent(Some(Transcription(Some(text))), None, None, false, false)))
  }

  /** What the code does at a turn boundary: `turnComplete` clears the buffer
      but the last-entry test looks only at the speaker, so when the coach
      speaks again before anyone else, the new fragment REPLACES the text of
      the coach's previous turn instead of starting a new entry. */
  lemma {:induction false} SameSpeakerAfterTurnEnd(t: State, d: string)
    requires ContinuesLast(t.conversation, Coach)
    ensures var r := Steps(t, [TurnEnd(), CoachFragment(d)]);
      && |r.conversation| == |t.conversation|
      && r.conversation == t.conversation[..|t.conversation| - 1] + [Message(Coach, d)]
      && r.output == d
  {
    var t1 := Step(t, TurnEnd());
    assert t1 == State(t.conversation, "", "");
    assert [TurnEnd(), CoachFragment(d)][1..] == [CoachFragment(d)];
    assert Steps(t, [TurnEnd(), CoachFragment(d)]) == Steps(t1, [CoachFragment(d)]);
    assert Steps(t1, [CoachFragment(d)]) == Step(t1, CoachFragment(d));
    assert OutputDelta(CoachFragment(d)) == Some(d);
    assert t1.output + d == d;
    assert ContinuesLast(t1.conversation, Coach);
  }

  // ---------------------------------------------------------------------------
  // A streaming turn

  function Concat(ds: seq<string>): string
    decreases |ds|
  {
    if ds == [] then "" else ds[0] + Concat(ds[1..])
  }

  function CoachFragments(ds: seq<string>): (ms: seq<ServerMessage>)
    ensures |ms| == |ds|
    decreases |ds|
  {
    if ds == [] then [] else [CoachFragment(ds[0])] + CoachFragments(ds[1..])
  }

  /** Running a message and then the rest is running them all. */
  lemma StepsCons(t: State, m: ServerMessage, ms: seq<ServerMessage>)
    ensures Steps(t, [m] + ms) == Steps(Step(t, m), ms)
  {
    assert ([m] + ms)[1..] == ms;
  }

  /** One coach fragment: the coach's open entry, or a new one, holds the
      extended output buffer; the entries before it and the input buffer stay. */
  lemma CoachFragmentStep(t: State, d: string)
    ensures var r := Step(t, CoachFragment(d));
      && r.conversation == Settled(t.conversation, Coach) + [Message(Coach, t.output + d)]
      && Settled(r.conversation, Coach) == Settled(t.conversation, Coach)
      && r.output == t.output + d
      && r.input == t.input
  {
    assert OutputDelta(CoachFragment(d)) == Some(d);
    var r := Step(t, CoachFragment(d));
    assert ContinuesLast(r.conversation, Coach);
    assert r.conversation[..|r.conversation| - 1] == Settled(t.conversation, Coach);
  }

  /** The first of a run of coach fragments, taken off the front: the state
      `t1` it leaves, from which the rest of the run continues. */
  lemma PeelCoachFragment(t: State, ds: seq<string>) returns (t1: State)
    requires ds != []
    ensures Steps(t, CoachFragments(ds)) == Steps(t1, CoachFragments(ds[1..]))
    ensures |ds| == 1 ==> Steps(t, CoachFragments(ds)) == t1
    ensures t1.conversation == Settled(t.conversation, Coach) + [Message(Coach, t.output + ds[0])]
    ensures Settled(t1.conversation, Coach) == Settled(t.conversation, Coach)
    ensures t1.output == t.output + ds[0] && t1.input == t.input
  {
    t1 := Step(t, CoachFragment(ds[0]));
    CoachFragmentStep(t, ds[0]);
    assert CoachFragments(ds) == [CoachFragment(ds[0])] + CoachFragments(ds[1..]);
    StepsCons(t, CoachFragment(ds[0]), CoachFragments(ds[1..]));
    if |ds| == 1 {
      assert CoachFragments(ds[1..]) == [];
    }
  }

  /** The state a run of coach fragments is expected to leave: the coach's
      open entry, or a new one, holds the old buffer plus every fragment. */
  function CoachStreamed(t: State, ds: seq<string>): State {
    State(Settled(t.conversation, Coach) + [Message(Coach, t.output + Concat(ds))],
               t.input, t.output + Concat(ds))
  }

  /** The expected state after the first fragment, continued by the rest, is
      the expected state of the whole run. */
  lemma CoachStreamedPeel(t: State, t1: State, ds: seq<string>)
    requires ds != []
    requires t1.conversation == Settled(t.conversation, Coach) + [Message(Coach, t.output + ds[0])]
    requires Settled(t1.conversation, Coach) == Settled(t.conversation, Coach)
    requires t1.output == t.output + ds[0] && t1.input == t.input
    ensures |ds| == 1 ==> t1 == CoachStreamed(t, ds)
    ensures |ds| > 1 ==> CoachStreamed(t1, ds[1..]) == CoachStreamed(t, ds)
  {
    assert Concat(ds) == ds[0] + Concat(ds[1..]);
    assert t.output + Concat(ds) == t1.output + Concat(ds[1..]);
    if |ds| == 1 {
      assert Concat(ds[1..]) == "" && ds[0] + "" == ds[0];
    }
  }

  /** Streaming coach fragments with no turn end between them builds one coach
      entry holding the buffer plus all the fragments; everything before that
      entry is untouched and the input buffer is unchanged. */
  lemma {:induction false} CoachTurnAccumulates(t: State, ds: seq<string>)
    requires ds != []
    ensures var r := Steps(t, CoachFragments(ds));
      && r.conversation == Settled(t.conversation, Coach) + [Message(Coach, t.output + Concat(ds))]
      && r.output == t.output + Concat(ds)
      && r.input == t.input
    decreases |ds|
  {
    var t1 := PeelCoachFragment(t, ds);
    CoachStreamedPeel(t, t1, ds);
    if |ds| > 1 {
      CoachTurnAccumulates(t1, ds[1..]);
    }
    assert Steps(t, CoachFragments(ds)) == CoachStreamed(t, ds);
  }

  /** Coach fragments streamed into an empty transcript give one coach entry
      holding exactly their concatenation. */
  lemma StreamIntoEmpty(ds: seq<string>)
    requires ds != []
    ensures Steps(State([], "", ""), CoachFragments(ds)).conversation == [Message(Coach, Concat(ds))]
  {
    var t := State([], "", "");
    CoachTurnAccumulates(t, ds);
    assert Settled(t.conversation, Coach) == [];
    assert t.output + Concat(ds) == Concat(ds);
  }

  /** The text of the three fragments of the example below. */
  lemma HolaText(ds: seq<string>)
    requires ds == ["Hola", " que", " tal"]
    ensures Concat(ds) == "Hola que tal"
  {
    assert ds[1..] == [" que", " tal"] && ds[1..][1..] == [" tal"] && ds[1..][1..][1..] == [];
    assert Concat([" tal"]) == " tal" + "";
  }

  /** The fragments "Hola", " que", " tal" streamed into an empty transcript
      give exactly one coach entry, "Hola que tal". */
  lemma HolaQueTal(ds: seq<string>)
    requires ds == ["Hola", " que", " tal"]
    ensures Steps(State([], "", ""), CoachFragments(ds)).conversation == [Message(Coach, "Hola que tal")]
  {
    StreamIntoEmpty(ds);
    HolaText(ds);
  }
}
