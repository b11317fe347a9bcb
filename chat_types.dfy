/**
 * The data model of the chat front-end: messages, threads, artifacts and the
 * root application state. Timestamps are integer milliseconds; JavaScript's
 * optional (`?:`) fields are `Option`s.
 */
module ChatTypes {

  datatype Option<+T> = None | Some(value: T)

  /** JavaScript truthiness of an optional string: present and non-empty. */
  predicate Truthy(o: Option<string>)
  {
    o.Some? && o.value != ""
  }

  datatype Sender = User | Assistant

  datatype ThreadStatus = Active | Completed | Error

  datatype ArtifactType = Prompt | Post | Compliance | Image

  /** `agentUsed`, `stepName` and `isTyping` are optional; everything else is mandatory. */
  datatype Message = Message(
    id: string,
    content: string,
    sender: Sender,
    timestamp: int,
    agentUsed: Option<string>,
    stepName: Option<string>,
    isTyping: Option<bool>)

  /** A conversation. Its `sessionId` is optional: it is bound by the server's first reply. */
  datatype ChatThread = ChatThread(
    id: string,
    sessionId: Option<string>,
    title: string,
    messages: seq<Message>,
    createdAt: int,
    updatedAt: int,
    status: ThreadStatus)

  /** A byproduct of a reply; unlike a thread, its `sessionId` and `messageId` are mandatory. */
  datatype Artifact = Artifact(
    id: string,
    kind: ArtifactType,
    title: string,
    content: string,
    timestamp: int,
    sessionId: string,
    messageId: string)

  /** The root state: the current thread may be absent (`null`). */
  datatype AppState = AppState(
    currentThread: Option<ChatThread>,
    threads: seq<ChatThread>,
    artifacts: seq<Artifact>,
    isLoading: bool,
    userId: string)
}
