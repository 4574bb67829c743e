/** The protocol front end: the two declared tool schemas and the dispatch
    of a named call to its handler, with every failure reported in the
    `{success: False, error}` envelope. */
module Server {
  import opened Common
  import opened Gmail
  import opened Handlers

  /** The declared tools, one case each. */
  datatype Tool = GetUnreadEmailsTool | CreateDraftReplyTool

  function ToolName(t: Tool): string
  {
    match t
    case GetUnreadEmailsTool => "get_unread_emails"
    case CreateDraftReplyTool => "create_draft_reply"
  }

  /** The `if`/`elif` on `name`: exactly the two declared names are known. */
  function ParseTool(name: string): (r: Option<Tool>)
    ensures r.Some? ==> ToolName(r.value) == name
    ensures r.None? ==> forall t: Tool :: ToolName(t) != name
  {
    if name == "get_unread_emails" then Some(GetUnreadEmailsTool)
    else if name == "create_draft_reply" then Some(CreateDraftReplyTool)
    else None
  }

  lemma ParseToolName(t: Tool)
    ensures ParseTool(ToolName(t)) == Some(t)
  {
  }

  /** `call_tool(name, arguments)`, with `client` the handlers' global. The
      text serialisation of the envelope is not modelled. */
  function CallTool(client: Option<GmailClient>, name: string, args: map<string, Json>): (r: Envelope)
    ensures name == ToolName(GetUnreadEmailsTool) ==> r == UnreadEnvelope(client, args)
    ensures name == ToolName(CreateDraftReplyTool) ==> r == DraftEnvelope(client, args)
    ensures ParseTool(name).None? ==> r == Failed("Unknown tool: " + name) && r.Keys() == {"success", "error"}
    ensures "success" in r.Keys()
  {
    match ParseTool(name)
    case Some(GetUnreadEmailsTool) => UnreadEnvelope(client, args)
    case Some(CreateDraftReplyTool) => DraftEnvelope(client, args)
    case None => Failed(UnknownTool(name).Message())
  }

  /** Each route reaches its own handler and nothing else: an envelope of
      the listing shape comes only from `get_unread_emails`, a draft only
      from `create_draft_reply`, and a success only from a known tool. */
  lemma RouteDeterminesEnvelope(client: Option<GmailClient>, name: string, args: map<string, Json>)
    ensures CallTool(client, name, args).UnreadOk? || CallTool(client, name, args).UnreadFailed?
      <==> name == ToolName(GetUnreadEmailsTool)
    ensures CallTool(client, name, args).Draft? ==> name == ToolName(CreateDraftReplyTool)
    ensures CallTool(client, name, args).IsSuccess() ==> ParseTool(name).Some?
  {
  }

  /** One property of a tool's input schema. */
  datatype Property = Property(name: string, jsonType: string, description: string, default: Option<Json>)

  /** A declared tool: its name, description, properties and `required` list. */
  datatype ToolSchema = ToolSchema(name: string, description: string, properties: seq<Property>, required: seq<string>)

  function PropertyNames(ps: seq<Property>): (r: seq<string>)
    ensures |r| == |ps|
    ensures forall i | 0 <= i < |ps| :: r[i] == ps[i].name
  {
    seq(|ps|, i requires 0 <= i < |ps| => ps[i].name)
  }

  const MaxResultsProperty :=
    Property("max_results", "integer", "Maximum number of unread emails to retrieve (default: 10)", Some(JInt(10)))

  const UnreadSchema := ToolSchema(
    "get_unread_emails",
    "Fetch unread emails from Gmail. Returns sender, subject, body snippet, and thread/message IDs.",
    [MaxResultsProperty],
    [])

  const DraftProperties := [
    Property("thread_id", "string", "Thread ID from the original email (required)", None),
    Property("to", "string", "Recipient email address (required)", None),
    Property("subject", "string", "Email subject, typically 'Re: <original subject>' (required)", None),
    Property("body", "string", "The reply message body (required)", None),
    Property("in_reply_to", "string", "Original message ID for proper threading (optional)", None)
  ]

  const DraftSchema := ToolSchema(
    "create_draft_reply",
    "Create a draft reply to an email. The draft will be properly threaded with the original conversation.",
    DraftProperties,
    ["thread_id", "to", "subject", "body"])

  /** `list_tools()`: exactly the two dispatched tools, the draft tool
      requiring what its handler checks, in the same order, and the listing
      tool's `max_results` defaulting to the handler's default. */
  function ListTools(): (r: seq<ToolSchema>)
    ensures |r| == 2
    ensures forall i | 0 <= i < |r| :: ParseTool(r[i].name).Some?
    ensures r[0].name == ToolName(GetUnreadEmailsTool) && r[0].required == []
    ensures r[0].properties == [MaxResultsProperty]
    ensures MaxResultsProperty.name == "max_results" && MaxResultsProperty.default == Some(JInt(DefaultMaxResults))
    ensures r[1].name == ToolName(CreateDraftReplyTool) && r[1].required == RequiredDraftParams
  {
    [UnreadSchema, DraftSchema]
  }

  /** The draft schema declares the required parameters and then `in_reply_to`. */
  lemma DraftSchemaProperties()
    ensures PropertyNames(ListTools()[1].properties) == RequiredDraftParams + ["in_reply_to"]
  {
  }

  /** A call that follows the draft schema (every `required` name given) is
      never refused for a missing parameter. */
  lemma SchemaRequiredMatchesHandler(args: map<string, Json>)
    requires forall k | k in ListTools()[1].required :: k in args
    ensures MissingRequired(args, RequiredDraftParams).None?
  {
  }

  /** A `get_unread_emails` call that omits `max_results` asks the provider
      for the schema's default. */
  lemma SchemaDefaultMatchesHandler(args: map<string, Json>)
    requires "max_results" !in args
    ensures Some(MaxResults(args)) == ListTools()[0].properties[0].default
  {
  }
}
