/** The tool adapter: validates a tool call's arguments, calls the Gmail
    client held in the module's state, and wraps the outcome in the
    envelope that the tool returns. */
module Handlers {
  import opened Common
  import opened Gmail

  /** `max_results` when the call does not give one. */
  const DefaultMaxResults := 10

  /** The parameters `create_draft_reply` requires, in the order checked. */
  const RequiredDraftParams: seq<string> := ["thread_id", "to", "subject", "body"]

  /** The dictionaries a handler returns. */
  datatype Envelope =
    | UnreadOk(count: int, emails: seq<EmailSummary>)   // {success: True, count, emails}
    | UnreadFailed(error: string)                       // {success: False, error, emails: []}
    | Draft(result: DraftResult)                        // the client's result, unchanged
    | Failed(error: string)                             // {success: False, error}
  {
    function IsSuccess(): bool
    {
      match this
      case UnreadOk(_, _) => true
      case Draft(d) => d.success
      case _ => false
    }

    function Keys(): set<string>
    {
      match this
      case UnreadOk(_, _) => {"success", "count", "emails"}
      case UnreadFailed(_) => {"success", "error", "emails"}
      case Draft(_) => {"draft_id", "message_id", "thread_id", "success"}
      case Failed(_) => {"success", "error"}
    }

    /** The `emails` entry, when the dictionary has one. */
    function Emails(): Option<seq<EmailSummary>>
    {
      match this
      case UnreadOk(_, es) => Some(es)
      case UnreadFailed(_) => Some([])
      case _ => None
    }

    /** The `error` entry, when the dictionary has one. */
    function ErrorText(): Option<string>
    {
      match this
      case UnreadFailed(e) => Some(e)
      case Failed(e) => Some(e)
      case _ => None
    }
  }

  /** `params[i]` is absent from `args` and every parameter before it is present. */
  ghost predicate FirstAbsentAt(args: map<string, Json>, params: seq<string>, i: int)
  {
    && 0 <= i < |params|
    && params[i] !in args
    && forall j | 0 <= j < i :: params[j] in args
  }

  /** The first of `params` that is not a key of `args`; a present key
      passes whatever its value, an empty string included. */
  function MissingRequired(args: map<string, Json>, params: seq<string>): (r: Option<string>)
    ensures r.None? <==> forall i | 0 <= i < |params| :: params[i] in args
    ensures r.Some? ==> exists i :: FirstAbsentAt(args, params, i) && params[i] == r.value
  {
    if params == [] then None
    else if params[0] !in args then
      assert FirstAbsentAt(args, params, 0);
      Some(params[0])
    else
      var r := MissingRequired(args, params[1..]);
      assert r.Some? ==> exists i :: FirstAbsentAt(args, params, i) && params[i] == r.value by {
        if r.Some? {
          var i :| FirstAbsentAt(args, params[1..], i) && params[1..][i] == r.value;
          assert FirstAbsentAt(args, params, i + 1) by {
            forall j | 0 <= j < i + 1 ensures params[j] in args {
              if j > 0 { assert params[j] == params[1..][j - 1]; }
            }
          }
        }
      }
      r
  }

  /** The required-parameter loop of `create_draft_reply`, stopping at the
      first absent one. */
  method FirstMissing(args: map<string, Json>, params: seq<string>) returns (missing: Option<string>)
    ensures missing == MissingRequired(args, params)
  {
    var i := 0;
    while i < |params|
      invariant 0 <= i <= |params|
      invariant MissingRequired(args, params) == MissingRequired(args, params[i..])
    {
      assert params[i..][1..] == params[i + 1..];
      if params[i] !in args {
        return Some(params[i]);
      }
      i := i + 1;
    }
    return None;
  }

  /** `arguments.get('max_results', 10)` */
  function MaxResults(args: map<string, Json>): (v: Json)
    ensures "max_results" !in args ==> v == JInt(DefaultMaxResults)
    ensures "max_results" in args ==> v == args["max_results"]
  {
    Get(args, "max_results", JInt(DefaultMaxResults))
  }

  /** The `get_unread_emails` tool. */
  function UnreadEnvelope(client: Option<GmailClient>, args: map<string, Json>): (r: Envelope)
    ensures r.UnreadOk? || r.UnreadFailed?
    ensures "emails" in r.Keys() && r.Emails().Some?
    ensures client.None? ==> r == UnreadFailed("Gmail client not initialized")
    ensures r.IsSuccess() <==> client.Some? && UnreadEmails(client.value, MaxResults(args)).Success?
    ensures r.IsSuccess() ==> r.count == |r.emails| && r.emails == UnreadEmails(client.value, MaxResults(args)).value
    ensures !r.IsSuccess() ==> r.Emails() == Some([]) && r.ErrorText().Some?
    ensures client.Some? && UnreadEmails(client.value, MaxResults(args)).Failure? ==>
      r.error == UnreadEmails(client.value, MaxResults(args)).error.Message()
  {
    var maxResults := MaxResults(args);
    if client.None? then UnreadFailed(NotInitialized.Message())
    else
      match UnreadEmails(client.value, maxResults)
      case Success(emails) => UnreadOk(|emails|, emails)
      case Failure(e) => UnreadFailed(e.Message())
  }

  /** The arguments `create_draft_reply` passes to the client. */
  datatype DraftCall = DraftCall(threadId: Json, to: Json, subject: Json, body: Json, inReplyTo: Json)

  /** The client call, once the required keys are known to be present:
      each required argument is passed unchanged, and an absent
      `in_reply_to` is passed as `None`. */
  function DraftArgs(args: map<string, Json>): (a: DraftCall)
    requires MissingRequired(args, RequiredDraftParams).None?
    ensures "thread_id" in args && "to" in args && "subject" in args && "body" in args
    ensures a.threadId == args["thread_id"] && a.to == args["to"]
    ensures a.subject == args["subject"] && a.body == args["body"]
    ensures "in_reply_to" !in args ==> a.inReplyTo == JNull
    ensures "in_reply_to" in args ==> a.inReplyTo == args["in_reply_to"]
  {
    assert RequiredDraftParams[0] in args && RequiredDraftParams[1] in args;
    assert RequiredDraftParams[2] in args && RequiredDraftParams[3] in args;
    DraftCall(args["thread_id"], args["to"], args["subject"], args["body"], Get(args, "in_reply_to", JNull))
  }

  /** `gmail_client.create_draft_reply(...)` on the call's arguments. */
  function ClientDraft(client: GmailClient, a: DraftCall): Result<DraftResult, Error>
  {
    DraftReply(client, a.threadId, a.to, a.subject, a.body, a.inReplyTo)
  }

  /** The `create_draft_reply` tool. */
  function DraftEnvelope(client: Option<GmailClient>, args: map<string, Json>): (r: Envelope)
    ensures r.Draft? || r.Failed?
    ensures MissingRequired(args, RequiredDraftParams).Some? ==>
      r == Failed("Missing required parameter: " + MissingRequired(args, RequiredDraftParams).value)
    ensures MissingRequired(args, RequiredDraftParams).None? && client.None? ==>
      r == Failed("Gmail client not initialized")
    ensures r.IsSuccess() <==>
      && MissingRequired(args, RequiredDraftParams).None?
      && client.Some?
      && ClientDraft(client.value, DraftArgs(args)).Success?
    ensures r.IsSuccess() ==> r == Draft(ClientDraft(client.value, DraftArgs(args)).value)
    ensures !r.IsSuccess() ==> r.Failed?
  {
    match MissingRequired(args, RequiredDraftParams)
    case Some(p) => Failed(MissingParameter(p).Message())
    case None =>
      if client.None? then Failed(NotInitialized.Message())
      else
        match ClientDraft(client.value, DraftArgs(args))
        case Success(d) => Draft(d)
        case Failure(e) => Failed(e.Message())
  }

  /** A missing parameter decides the outcome before the client is looked
      at: the envelope is the same whatever client, or none, is installed. */
  lemma ValidationBeforeClient(c1: Option<GmailClient>, c2: Option<GmailClient>, args: map<string, Json>)
    requires MissingRequired(args, RequiredDraftParams).Some?
    ensures DraftEnvelope(c1, args) == DraftEnvelope(c2, args)
    ensures DraftEnvelope(c1, args).ErrorText() == Some("Missing required parameter: " + MissingRequired(args, RequiredDraftParams).value)
  {
  }

  /** A call that omits `body` but has the other required keys is refused
      with `Missing required parameter: body`. */
  lemma MissingBodyNamed(client: Option<GmailClient>, args: map<string, Json>)
    requires "thread_id" in args && "to" in args && "subject" in args && "body" !in args
    ensures DraftEnvelope(client, args) == Failed("Missing required parameter: body")
  {
    var p := MissingRequired(args, RequiredDraftParams);
    assert RequiredDraftParams[3] !in args;
    var i :| FirstAbsentAt(args, RequiredDraftParams, i) && RequiredDraftParams[i] == p.value;
    assert i == 3;
  }

  /** The listing's error text: an `HttpError` of the list call arrives
      with the `Failed to fetch unread emails: ` prefix, any other
      exception of it arrives as its own text. */
  lemma UnreadErrorText(client: GmailClient, args: map<string, Json>)
    ensures client.service.listUnread(MaxResults(args)).ListHttpError? ==>
      UnreadEnvelope(Some(client), args)
        == UnreadFailed("Failed to fetch unread emails: " + client.service.listUnread(MaxResults(args)).error)
    ensures client.service.listUnread(MaxResults(args)).ListRaised? ==>
      UnreadEnvelope(Some(client), args) == UnreadFailed(client.service.listUnread(MaxResults(args)).error)
  {
  }

  /** A call with every required key present: the draft's error text. A
      `body` that is not a string is refused with `MIMEText`'s
      `AttributeError`; an `HttpError` of the draft call arrives with the
      `Failed to create draft reply: ` prefix, any other exception of it
      as its own text. */
  lemma DraftErrorText(client: GmailClient, args: map<string, Json>)
    requires "thread_id" in args && "to" in args && "subject" in args && "body" in args
    ensures !args["body"].JStr? ==>
      DraftEnvelope(Some(client), args) == Failed("'" + TypeName(args["body"]) + "' object has no attribute 'encode'")
    ensures args["body"].JStr? ==>
      var outcome := client.service.createDraft(ReplyRequest(
        args["thread_id"], args["to"], args["subject"], args["body"].s, Get(args, "in_reply_to", JNull)));
      && (outcome.DraftHttpError? ==> DraftEnvelope(Some(client), args) == Failed("Failed to create draft reply: " + outcome.error))
      && (outcome.DraftRaised? ==> DraftEnvelope(Some(client), args) == Failed(outcome.error))
  {
    assert MissingRequired(args, RequiredDraftParams).None? by {
      assert forall i | 0 <= i < |RequiredDraftParams| :: RequiredDraftParams[i] in args by {
        assert RequiredDraftParams == ["thread_id", "to", "subject", "body"];
      }
    }
  }

  /** A successful `create_draft_reply` submitted the reply built from the
      call's own arguments, bound to its `thread_id`, and returns the ids
      of the draft the provider accepted. */
  lemma DraftSubmitsArguments(client: GmailClient, args: map<string, Json>)
    requires DraftEnvelope(Some(client), args).IsSuccess()
    ensures "thread_id" in args && "to" in args && "subject" in args && "body" in args
    ensures args["body"].JStr?
    ensures var q := ReplyRequest(args["thread_id"], args["to"], args["subject"], args["body"].s, Get(args, "in_reply_to", JNull));
      && q.threadId == args["thread_id"]
      && client.service.createDraft(q).DraftAccepted?
      && DraftEnvelope(Some(client), args) == Draft(DraftResult(
           client.service.createDraft(q).draft.id,
           client.service.createDraft(q).draft.messageId,
           client.service.createDraft(q).draft.messageThreadId,
           true))
  {
    var a := DraftArgs(args);
    assert ClientDraft(client, a).Success?;
  }

  /** The module's `gmail_client` global and the two tool handlers that read it. */
  class GmailTools {
    var gmailClient: Option<GmailClient>

    /** At import the global is `None`. */
    constructor ()
      ensures gmailClient == None
    {
      gmailClient := None;
    }

    /** `initialize_gmail_client`, given the client its constructor built. */
    method InitializeGmailClient(client: GmailClient)
      modifies this
      ensures gmailClient == Some(client)
    {
      gmailClient := Some(client);
    }

    /** `get_unread_emails(arguments)` */
    method GetUnreadEmails(args: map<string, Json>) returns (r: Envelope)
      ensures r == UnreadEnvelope(gmailClient, args)
    {
      var maxResults := MaxResults(args);
      if gmailClient.None? {
        return UnreadFailed(NotInitialized.Message());
      }
      var emails := Gmail.GetUnreadEmails(gmailClient.value, maxResults);
      if emails.Failure? {
        return UnreadFailed(emails.error.Message());
      }
      return UnreadOk(|emails.value|, emails.value);
    }

    /** `create_draft_reply(arguments)` */
    method CreateDraftReply(args: map<string, Json>) returns (r: Envelope)
      ensures r == DraftEnvelope(gmailClient, args)
    {
      var missing := FirstMissing(args, RequiredDraftParams);
      if missing.Some? {
        return Failed(MissingParameter(missing.value).Message());
      }
      if gmailClient.None? {
        return Failed(NotInitialized.Message());
      }
      var call := DraftArgs(args);
      var result := Gmail.CreateDraftReply(gmailClient.value, call.threadId, call.to, call.subject, call.body, call.inReplyTo);
      if result.Failure? {
        return Failed(result.error.Message());
      }
      return Draft(result.value);
    }
  }
}
