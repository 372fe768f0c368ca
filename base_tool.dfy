/** src/tools/base-tool.ts: the response shapes every tool returns and the
    wrapper that turns a thrown error into an ordinary text response. The
    tools see the API layer as a `Service`: what each `ApiCall` resolves
    to, or the message it rejects with. A tool run records the calls it
    made, in order. */
module BaseTool {
  import opened Wrappers
  import opened Strings
  import opened Json
  import opened Helpers
  import opened Api

  /** One `{ type: "text", text }` content item. */
  datatype TextContent = TextContent(text: string)

  /** `ToolResult`: the content items and the optional `isError` flag. */
  datatype ToolResult = ToolResult(content: seq<TextContent>, isError: Option<bool>)

  /** The API layer as the tools see it: JSON answers, and the text answer
      of the diff call. */
  datatype Service = Service(json: ApiCall -> Result<Json>, diff: ApiCall -> Result<string>)

  /** A finished tool call: what it returned and the API calls it made. */
  datatype Run = Run(result: ToolResult, calls: seq<ApiCall>)

  /** `createSuccessResponse`: exactly one text item, `isError` unset. */
  function CreateSuccessResponse(message: string): (r: ToolResult)
    ensures r.content == [TextContent(message)] && r.isError == None
  {
    ToolResult([TextContent(message)], None)
  }

  /** `createErrorResponse`: one text item holding `createErrorMessage`,
      and `isError` still unset. */
  function CreateErrorResponse(operation: string, error: Thrown): (r: ToolResult)
    ensures |r.content| == 1 && r.isError == None
    ensures r.content[0].text == CreateErrorMessage(operation, error)
  {
    ToolResult([TextContent(CreateErrorMessage(operation, error))], None)
  }

  /** `executeOperation`: a completed callback's result is returned as is;
      a thrown error becomes one text item `Failed to <operation>: <message>`. */
  function ExecuteOperation(operation: string, outcome: Result<ToolResult>): (r: ToolResult)
    ensures outcome.Ok? ==> r == outcome.value
    ensures outcome.Err? ==> |r.content| == 1 && r.isError == None
    ensures outcome.Err? ==>
      && StartsWith(r.content[0].text, "Failed to " + operation + ": ")
      && r.content[0].text[|"Failed to " + operation + ": "|..] == outcome.msg
  {
    match outcome
    case Ok(result) => result
    case Err(m) => CreateErrorResponse(operation, ErrorValue(m))
  }

  /** `${v.key}` in a template: throws on `null`, renders the field of an
      object and `undefined` for any other primitive. */
  function Field(v: Json, key: string): (r: Result<string>)
    ensures r.Err? <==> v.JNull?
    ensures r.Err? ==> r.msg == NullAccessMessage("null", key)
    ensures v.JObj? ==> r == Ok(Display(Lookup(v.fields, key)))
  {
    match Prop(Some(v), key)
    case Err(m) => Err(m)
    case Ok(x) => Ok(Display(x))
  }

  /** An API answer used as an array: `null` throws on the first property
      read, any other non-array is refused with the message of the
      `TypeError` calling `name.map` gives. */
  function AsList(v: Json, firstRead: string, name: string): (r: Result<seq<Json>>)
    ensures v.JArr? <==> r.Ok?
    ensures v.JArr? ==> r.value == v.items
    ensures v.JNull? ==> r == Err(NullAccessMessage("null", firstRead))
  {
    match v
    case JArr(items) => Ok(items)
    case JNull => Err(NullAccessMessage("null", firstRead))
    case _ => Err(name + ".map is not a function")
  }
}
