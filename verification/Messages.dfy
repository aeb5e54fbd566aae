/** Transcript messages. A Go string is modelled as a sequence of byte-valued characters. */
module Messages {
  import opened Wrappers

  /** The tool whose results carry skill instructions. */
  const SKILL_TOOL := "hydaelyn_activate_skill"

  datatype Role = System | User | Assistant | Tool | Custom

  datatype Kind = Standard | CompactionSummary | OtherKind

  /** The string `turn:T:call:S`, as the pair it encodes. */
  datatype OperationId = Unset | Operation(turn: int, slot: int) | Malformed

  datatype ToolCall = ToolCall(id: string, name: string, arguments: string, operation: OperationId)

  datatype ToolResult = ToolResult(callId: string, name: string, content: string, structured: string, isError: bool)

  /** `fixed` marks a message whose tool text must not be rewritten: it carries provider
      state, message-level content parts, or tool-result parts that are not plain text. */
  datatype Message = Message(
    role: Role, kind: Kind, text: string, thinking: string,
    cacheBoundary: bool, archived: bool, fixed: bool, recovery: string,
    toolCalls: seq<ToolCall>, toolResult: Option<ToolResult>)

  function NewText(role: Role, text: string): Message {
    Message(role, Standard, text, "", false, false, false, "", [], None)
  }

  function NewToolResult(result: ToolResult): Message {
    Message(Tool, Standard, "", "", false, false, false, "", [], Some(result))
  }
}
