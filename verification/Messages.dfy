/** The messages that agents exchange with models (internal/provider/types.go). */
module Messages {
  datatype ToolCall = ToolCall(id: string, name: string, args: string)

  datatype Role = System | User | Assistant | Tool

  datatype Part = TextPart(text: string) | ImagePart(url: string) | OtherPart

  /** When there are parts, they are the content; otherwise the text is. */
  datatype Message = Message(role: Role, content: string, parts: seq<Part>, name: string, toolCalls: seq<ToolCall>,
                             toolID: string, isError: bool)

  datatype Output = Output(content: string, isError: bool)
}
