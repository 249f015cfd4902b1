/** The records of types.ts. They carry no behaviour of their own. */
module Types {
  import opened Results

  datatype MessageRole = User | Model

  /** The wire value of a role (`MessageRole.USER = 'user'`, `MessageRole.MODEL = 'model'`). */
  function RoleName(role: MessageRole): string {
    match role
    case User => "user"
    case Model => "model"
  }

  /** An attached or generated file. `data` is the base64 payload; it is `None` where
      the JavaScript value is `undefined` (a data URL without a comma). */
  datatype FileData = FileData(name: string, mimeType: string, data: Option<string>, url: string)

  datatype MessageKind = Text | Image | Video | Audio

  datatype Link = Link(uri: string, title: string)

  datatype GroundingChunk = GroundingChunk(web: Option<Link>, maps: Option<Link>)

  /** A chat bubble. The optional fields of the TypeScript interface are `Option`s;
      `grounding` is set by the chat screen although types.ts does not declare it. */
  datatype ChatMessage = ChatMessage(
    id: string,
    role: MessageRole,
    content: string,
    files: Option<seq<FileData>>,
    kind: Option<MessageKind>,
    grounding: Option<seq<GroundingChunk>>)

  datatype UserProfile = UserProfile(name: string, day: string, month: string, year: string)
}
