/** The data types shared by the client and the server routes
    (src/types/index.ts). Optional string fields use "" for absent, since
    the code only ever tests them for truthiness; timestamps are not
    modelled. */
module ChatTypes {

  datatype Role = User | Assistant | System

  datatype Message = Message(role: Role, content: string)

  /** The body the client posts to an inference route. */
  datatype InferenceRequest = InferenceRequest(
    message: string,
    userId: string,
    threadId: string,
    newThread: bool,
    systemPrompt: string,
    stream: bool,
    model: string)

  /** The body of a non-streaming inference reply. */
  datatype InferenceResponse = InferenceResponse(response: string, threadId: string)

  /** A stored conversation; its free-form `metadata` is not modelled. */
  datatype ChatThread = ChatThread(
    id: string,
    messages: seq<Message>,
    title: string,
    createdAt: string,
    updatedAt: string)
}
