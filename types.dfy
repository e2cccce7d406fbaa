/** The record shapes shared by the chat client and its model service. */
module Types {
  import opened Wrappers

  /** The model identifiers the client knows about. Only `Gemini3Flash`, `Gemini3Pro` and `GeminiImage` are used by any code. */
  datatype ModelId =
    | Gemini3Flash       // 'gemini-3-flash-preview'
    | Gemini3Pro         // 'gemini-3-pro-preview'
    | Gemini25Flash      // 'gemini-2.5-flash'
    | GeminiImage        // 'gemini-2.5-flash-image'
    | GroqLlama33        // 'llama-3.3-70b-versatile'
    | CerebrasLlama31    // 'llama3.1-70b'
    | HfMistral7B        // 'mistralai/Mistral-7B-Instruct-v0.3'
    | HfLlama3           // 'meta-llama/Meta-Llama-3-8B-Instruct'

  /** Binary content attached to a part: a MIME type and base64 text. */
  datatype InlineData = InlineData(mimeType: string, data: string)

  /** A piece of a conversation turn; either field may be absent. */
  datatype MessagePart = MessagePart(text: Option<string>, inlineData: Option<InlineData>)

  datatype LinkKind = WebLink | MapsLink

  /**
   * A citation shown under an answer. The record declares `type` as required,
   * but the only producer never sets it, so it is optional here.
   */
  datatype GroundingLink = GroundingLink(uri: string, title: string, kind: Option<LinkKind>)

  datatype Role = User | Assistant

  /** Declared provider tags; no code in the client sets or reads them. */
  datatype Provider = Google | Groq | Cerebras | HuggingFace

  datatype Message = Message(
    id: string,
    role: Role,
    content: string,
    parts: Option<seq<MessagePart>>,
    modelId: Option<ModelId>,
    provider: Option<Provider>,
    timestamp: int,
    isStreaming: Option<bool>,
    groundingLinks: Option<seq<GroundingLink>>,
    imageUrl: Option<string>)

  datatype ChatSession = ChatSession(
    id: string,
    title: string,
    messages: seq<Message>,
    createdAt: int,
    lastModelId: ModelId)
}
