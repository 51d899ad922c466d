/** The message shapes exchanged with the theater server (src/protocol.rs):
    the management envelope the client sends and receives on the physical
    connection, and the front-end commands and messages carried inside
    channel envelopes. Every enum of the source is a closed sum type here.

    Byte fields (`Vec<u8>`) that hold serialised JSON are `Payload`s; the
    `f32` fields are `F32` bit patterns. */
module Protocol {
  import opened Wrappers
  import opened Json

  /** The owner of one end of a channel. */
  datatype ChannelParticipant = Actor(id: string) | External

  /** Requests to the server. The client only ever serialises these. */
  datatype ManagementCommand =
    | StartActor(manifest: string, initialState: Option<Payload>)
    | NewStore
    | RequestActorMessage(id: string, data: Payload)
    | OpenChannel(actorId: ChannelParticipant, initialMessage: Payload)
    | SendOnChannel(channelId: string, message: Payload)
    | CloseChannel(channelId: string)

  /** Replies and notifications from the server. The client only ever
      deserialises these. The `message` field of the `Error` variant is
      called `errorMessage` here, since Dafny gives one field name one type
      across a datatype's variants. */
  datatype ManagementResponse =
    | StoreCreated(storeId: string)
    | ActorStarted(id: string)
    | RequestedMessage(id: string, message: Payload)
    | ChannelOpened(channelId: string, actorId: ChannelParticipant)
    | MessageSent(channelId: string)
    | ChannelMessage(channelId: string, senderId: ChannelParticipant, message: Payload)
    | ChannelClosed(channelId: string)
    | Error(errorMessage: string)

  /** What the interactive front end asks the manager actor to do. */
  datatype FrontendCommand =
    | StartActor
    | StopActor
    | BuildActor
    | ChangeRequest(description: string)
    | GetStatus
    | Disconnect

  datatype OperationType = Start | Stop | Build | Change

  datatype BuildEventType = Log | Progress | CommandStarted | CommandOutput | BuildComplete | FileExtracted

  /** Optional details of a build event; serialisation leaves out every field
      that is `None`. */
  datatype BuildEventDetails = BuildEventDetails(
    level: Option<string>,
    percentComplete: Option<F32>,
    status: Option<string>,
    command: Option<string>,
    args: Option<seq<string>>,
    stdout: Option<string>,
    stderr: Option<string>,
    success: Option<bool>,
    error: Option<string>,
    wasmPath: Option<string>,
    wasmHash: Option<string>)

  datatype OperationSummary = OperationSummary(operationId: string, operationType: OperationType, description: string)

  /** What the manager actor reports back to the front end. */
  datatype FrontendMessage =
    | Status(childRunning: bool, activeOperations: seq<OperationSummary>)
    | OperationStarted(operationId: string, operationType: OperationType, description: string)
    | OperationCompleted(operationId: string, success: bool, message: string)
    | OperationProgress(operationId: string, description: string, percentComplete: F32)
    | ChildStarted(childId: string)
    | ChildStopped(childId: string)
    | Log(level: string, message: string)
    | Error(code: string, message: string)
    | BuildEvent(operationId: string, eventType: BuildEventType, message: string, details: BuildEventDetails)

  // ----- serde variant tags -----

  /** The tag under which serde writes each request: the variant's name. */
  function CommandTag(c: ManagementCommand): string {
    match c
    case StartActor(_, _) => "StartActor"
    case NewStore => "NewStore"
    case RequestActorMessage(_, _) => "RequestActorMessage"
    case OpenChannel(_, _) => "OpenChannel"
    case SendOnChannel(_, _) => "SendOnChannel"
    case CloseChannel(_) => "CloseChannel"
  }

  /** The tag under which serde reads each response. */
  function ResponseTag(r: ManagementResponse): string {
    match r
    case StoreCreated(_) => "StoreCreated"
    case ActorStarted(_) => "ActorStarted"
    case RequestedMessage(_, _) => "RequestedMessage"
    case ChannelOpened(_, _) => "ChannelOpened"
    case MessageSent(_) => "MessageSent"
    case ChannelMessage(_, _, _) => "ChannelMessage"
    case ChannelClosed(_) => "ChannelClosed"
    case Error(_) => "Error"
  }

  /** No request the client writes carries the tag of a response, so a
      request echoed back by the server would be an unreadable response
      rather than a reply. */
  lemma CommandAndResponseTagsDisjoint(c: ManagementCommand, r: ManagementResponse)
    ensures CommandTag(c) != ResponseTag(r)
  {
  }

  function FrontendCommandTag(c: FrontendCommand): string {
    match c
    case StartActor => "StartActor"
    case StopActor => "StopActor"
    case BuildActor => "BuildActor"
    case ChangeRequest(_) => "ChangeRequest"
    case GetStatus => "GetStatus"
    case Disconnect => "Disconnect"
  }

  function FrontendMessageTag(m: FrontendMessage): string {
    match m
    case Status(_, _) => "Status"
    case OperationStarted(_, _, _) => "OperationStarted"
    case OperationCompleted(_, _, _) => "OperationCompleted"
    case OperationProgress(_, _, _) => "OperationProgress"
    case ChildStarted(_) => "ChildStarted"
    case ChildStopped(_) => "ChildStopped"
    case Log(_, _) => "Log"
    case Error(_, _) => "Error"
    case BuildEvent(_, _, _, _) => "BuildEvent"
  }

  /** The `#[serde(rename)]` of each operation type. */
  function OperationTypeTag(t: OperationType): string {
    match t
    case Start => "Start"
    case Stop => "Stop"
    case Build => "Build"
    case Change => "Change"
  }

  /** `impl Display for OperationType`: the text shown to the user is the
      variant's serde name. */
  function DisplayOperationType(t: OperationType): (text: string)
    ensures text == OperationTypeTag(t)
  {
    match t
    case Start => "Start"
    case Stop => "Stop"
    case Build => "Build"
    case Change => "Change"
  }

  /** Distinct operation types are shown differently. */
  lemma DisplayInjective(t: OperationType, u: OperationType)
    ensures DisplayOperationType(t) == DisplayOperationType(u) <==> t == u
  {
  }

  /** The `#[serde(rename)]` of each build event type. */
  function BuildEventTag(t: BuildEventType): string {
    match t
    case Log => "Log"
    case Progress => "Progress"
    case CommandStarted => "CommandStarted"
    case CommandOutput => "CommandOutput"
    case BuildComplete => "BuildComplete"
    case FileExtracted => "FileExtracted"
  }

  /** Every build event type is written under its own tag. */
  lemma BuildEventTagsDistinct(t: BuildEventType, u: BuildEventType)
    ensures BuildEventTag(t) == BuildEventTag(u) <==> t == u
  {
  }
}
