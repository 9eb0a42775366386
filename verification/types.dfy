/** The records shared by the UI and the service layer (types.ts), and the shape
    of the live-session server message that the code reads. */
module Types {
  import opened Wrappers

  /** Who said a transcript line. */
  datatype Speaker = User | Coach | System

  /** One line of the transcript. */
  datatype Message = Message(speaker: Speaker, text: string)

  /** The learner's choices, all free-form strings picked from option lists. */
  datatype Settings = Settings(targetLanguage: string, nativeLanguage: string, ageGroup: string)

  /** A `Partial<Settings>`: `None` is a key that the object does not carry. */
  datatype SettingsPatch = SettingsPatch(
    targetLanguage: Option<string>,
    nativeLanguage: Option<string>,
    ageGroup: Option<string>)

  /** The three-valued session flag of the UI. */
  datatype SessionState = Idle | Connecting | Active

  /** An exception raised by a browser API that the modelled code calls. */
  datatype JsError =
    | InvalidCharacterError  // atob on text that is not base64
    | RangeError             // an Int16Array over an odd number of bytes
    | NotSupportedError      // createBuffer with zero frames
    | TypeError              // indexing `parts` when the SDK left it undefined

  // The parts of the SDK's LiveServerMessage that the code reads. A flag the
  // server leaves undefined is `false`, which is how the code's truthiness
  // tests read it.

  /** A transcription fragment; its `text` is optional in the SDK. */
  datatype Transcription = Transcription(text: Option<string>)

  /** Inline media; `data` is base64 text. */
  datatype InlineData = InlineData(data: Option<string>)

  datatype Part = Part(inlineData: Option<InlineData>)

  /** A model turn; `parts` is optional in the SDK. */
  datatype Content = Content(parts: Option<seq<Part>>)

  datatype ServerContent = ServerContent(
    outputTranscription: Option<Transcription>,
    inputTranscription: Option<Transcription>,
    modelTurn: Option<Content>,
    turnComplete: bool,
    interrupted: bool)

  datatype ServerMessage = ServerMessage(serverContent: Option<ServerContent>)

  /** What `s += t.text` appends: JavaScript turns an undefined operand into
      the text "undefined". */
  function AppendedText(t: Transcription): (r: string)
    ensures t.text.Some? ==> r == t.text.value
    ensures t.text.None? ==> r == "undefined"
  {
    match t.text
    case Some(s) => s
    case None => "undefined"
  }

  /** The value of `message.serverContent?.modelTurn?.parts[0]?.inlineData?.data`:
      the optional chain stops at an undefined `modelTurn`, but `parts[0]` is
      read without `?.`, so an undefined `parts` throws. */
  function AudioData(m: ServerMessage): (r: Result<Option<string>, JsError>)
    ensures r.Failure? <==>
      m.serverContent.Some? && m.serverContent.value.modelTurn.Some? &&
      m.serverContent.value.modelTurn.value.parts.None?
    ensures r.Failure? ==> r.error == TypeError
    ensures r == Success(None) <==>
      || m.serverContent.None?
      || m.serverContent.value.modelTurn.None?
      || (var ps := m.serverContent.value.modelTurn.value.parts;
          ps.Some? && (ps.value == [] || ps.value[0].inlineData.None? ||
                       ps.value[0].inlineData.value.data.None?))
  {
    match m.serverContent
    case None => Success(None)
    case Some(sc) =>
      match sc.modelTurn
      case None => Success(None)
      case Some(turn) =>
        match turn.parts
        case None => Failure(TypeError)
        case Some(ps) =>
          if ps == [] then Success(None)
          else match ps[0].inlineData
            case None => Success(None)
            case Some(inline) => Success(inline.data)
  }

  /** True when the message carries a truthy `interrupted` flag. */
  predicate Interrupted(m: ServerMessage) {
    m.serverContent.Some? && m.serverContent.value.interrupted
  }
}
