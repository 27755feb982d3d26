// Events the actor emits, facts the pipeline stages send it, commands clients
// post (internal/session/types.go, internal/session/response.go). Correlation
// tags, messages, metadata and token accounting are left out.
module Events {
  import opened Audio
  import opened Utf8
  import opened Conversations
  import Turns

  type ResponseRef = nat
  type Generation = nat

  datatype ResponseStatus =
    | ResponseInProgress | ResponseCompleted | ResponseCancelled | ResponseIncomplete | ResponseFailed

  datatype StatusReason =
    | NoReason | TurnDetected | ClientCancelled | MaxOutputTokens | ContentFilter

  datatype ErrorCode =
    | InvalidSession | BufferEmpty | BufferOverflow | ItemNotFound | ItemNotTruncatable | InvalidItem
    | ResponseAlreadyActive | ProviderError | InvalidOverrides | TranscriptTimeout | CancelNotActive
    | TruncateOutOfRange | VoiceLocked

  datatype Event =
    | SessionUpdated
    | ErrorEvent(code: ErrorCode, fatal: bool)
    | AudioBufferCommitted(item: ItemRef, previous: ItemRef)
    | AudioBufferCleared
    | SpeechStarted(audioMs: int, item: ItemRef)
    | SpeechStopped(audioMs: int, item: ItemRef)
    | ItemAdded(view: ItemView, previous: ItemRef)
    | ItemDone(view: ItemView)
    | ItemDeleted(item: ItemRef)
    | ItemTruncated(item: ItemRef, audioMs: int)
    | InputTranscriptDelta(item: ItemRef, delta: Text)
    | InputTranscriptDone(item: ItemRef, text: Text)
    | ResponseCreated(resp: ResponseRef, textOnly: bool)
    | OutputItemAdded(resp: ResponseRef, view: ItemView, previous: ItemRef)
    | OutputTextDelta(resp: ResponseRef, item: ItemRef, delta: Text)
    | OutputTranscriptDelta(resp: ResponseRef, item: ItemRef, delta: Text)
    | OutputAudioDelta(resp: ResponseRef, item: ItemRef, pcm: Bytes)
    | ToolCallArguments(resp: ResponseRef, item: ItemRef, arguments: Text)
    | OutputTextDone(resp: ResponseRef, item: ItemRef, text: Text)
    | OutputAudioDone(resp: ResponseRef, item: ItemRef)
    | OutputTranscriptDone(resp: ResponseRef, item: ItemRef, text: Text)
    | OutputItemDone(resp: ResponseRef, view: ItemView)
    | ResponseDone(resp: ResponseRef, status: ResponseStatus, reason: StatusReason, output: seq<ItemView>)
    | SessionClosed

  datatype Finish = FinishStop | FinishLength | FinishContentFilter

  datatype Stage = LlmStage | TtsStage

  // What crosses respEvents, stamped with the generation that produced it.
  datatype PipeEvent =
    | PipeTextDelta(gen: Generation, resp: ResponseRef, delta: Text)
    | PipeTranscriptDelta(gen: Generation, resp: ResponseRef, delta: Text)
    | PipeAudioDelta(gen: Generation, resp: ResponseRef, pcm: Bytes)
    | PipeToolCall(gen: Generation, call: ToolCall)
    | PipeLlmDone(gen: Generation, finish: Finish)
    | PipeTtsStart(gen: Generation)
    | PipeSegment(gen: Generation, segment: Segment)
    | PipeAlignment(gen: Generation, timings: seq<CharTiming>)
    | PipeTtsDone(gen: Generation)
    | PipeError(gen: Generation, stage: Stage)

  datatype Option<T> = None | Some(value: T)

  // valid stands for the outcome of config validation.
  datatype SessionPatch = SessionPatch(
    valid: bool,
    textOnly: Option<bool>,
    voice: Option<Text>,
    transcription: Option<bool>,
    turnDetection: Option<Turns.TurnDetection>)

  datatype Overrides = Overrides(valid: bool, textOnly: Option<bool>, voice: Option<Text>)

  const NO_OVERRIDES: Overrides := Overrides(true, None, None)

  datatype ItemSpec = ItemSpec(role: Role, toolOutput: bool, text: Text, callItem: ItemRef)

  datatype Command =
    | UpdateSession(patch: SessionPatch)
    | CommitAudio
    | ClearAudio
    | CreateItem(spec: ItemSpec, place: Place)
    | DeleteItem(ref: ItemRef)
    | TruncateItem(ref: ItemRef, contentIndex: int, audioEndMs: int)
    | CreateResponse(overrides: Overrides)
    | CancelResponse(resp: ResponseRef)
    | CloseSession

  datatype AsrEvent =
    | AsrPartial(text: Text)
    | AsrFinal(text: Text)
    | AsrEndOfTurn
    | AsrError
}
