/** JSON-RPC 2.0 messages in Copilot's language-server logs
    (hindsight-copilot, lsp.rs). JSON values are kept as their text. */
module Lsp {
  import opened Wrappers

  datatype JsonValue = JsonValue(text: string)

  /** A message; which fields are present decides its kind (sections 4,
      4.1 and 5 of the JSON-RPC 2.0 specification). */
  datatype LspMessage = LspMessage(
    jsonrpc: string,
    id: Option<JsonValue>,
    methodName: Option<string>,
    params: Option<JsonValue>,
    result: Option<JsonValue>,
    error: Option<JsonValue>)
  {
    /** A request carries an id and a method. */
    predicate IsRequest() { id.Some? && methodName.Some? }

    /** A response carries an id and a result or an error. */
    predicate IsResponse() { id.Some? && (result.Some? || error.Some?) }

    /** A notification carries a method and no id. */
    predicate IsNotification() { id.None? && methodName.Some? }

    predicate IsError() { error.Some? }

    /** Attach parameters; every other field is unchanged. */
    function WithParams(p: JsonValue): (r: LspMessage)
      ensures r.params == Some(p)
      ensures r.jsonrpc == jsonrpc && r.id == id && r.methodName == methodName && r.result == result && r.error == error
      ensures r.IsRequest() == IsRequest() && r.IsNotification() == IsNotification()
    {
      this.(params := Some(p))
    }
  }

  /** `LspMessage::request`: version "2.0", an id and a method; a request
      and nothing else. */
  function Request(id: JsonValue, name: string): (r: LspMessage)
    ensures r.jsonrpc == "2.0" && r.id == Some(id) && r.methodName == Some(name)
    ensures r.IsRequest() && !r.IsNotification() && !r.IsResponse() && !r.IsError()
  {
    LspMessage("2.0", Some(id), Some(name), None, None, None)
  }

  /** `LspMessage::notification`: a method and no id; a notification and
      nothing else. */
  function Notification(name: string): (r: LspMessage)
    ensures r.jsonrpc == "2.0" && r.id.None? && r.methodName == Some(name)
    ensures r.IsNotification() && !r.IsRequest() && !r.IsResponse() && !r.IsError()
  {
    LspMessage("2.0", None, Some(name), None, None, None)
  }

  /** No message is both a request and a notification; one with an id and
      an error is an error response. */
  lemma KindsExclusive(m: LspMessage)
    ensures !(m.IsRequest() && m.IsNotification())
    ensures m.id.Some? && m.error.Some? ==> m.IsResponse() && m.IsError()
    ensures m.IsNotification() ==> !m.IsResponse()
  {
  }

  newtype u32 = x: int | 0 <= x < 0x1_0000_0000

  datatype Position = Position(line: u32, character: u32)

  datatype Range = Range(start: Position, end: Position)

  datatype CodeContext = CodeContext(uri: string, position: Position, visibleRange: Option<Range>)
  {
    /** Set the visible range; uri and position are unchanged. */
    function WithVisibleRange(start: Position, end: Position): (r: CodeContext)
      ensures r.visibleRange == Some(Range(start, end))
      ensures r.uri == uri && r.position == position
    {
      this.(visibleRange := Some(Range(start, end)))
    }
  }

  /** `CodeContext::new`: a position and no visible range. */
  function NewCodeContext(uri: string, line: u32, character: u32): (r: CodeContext)
    ensures r.uri == uri && r.position.line == line && r.position.character == character
    ensures r.visibleRange.None?
  {
    CodeContext(uri, Position(line, character), None)
  }
}
