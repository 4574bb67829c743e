# Gmail tool server: a verified model of its decision logic

The repository is a small tool-calling server with two tools. `get_unread_emails` returns a
summary of each unread Gmail message. `create_draft_reply` creates a draft reply bound
to an existing thread. Everything around the tools is OAuth and HTTP glue. This project
models the decision logic between tool call and provider call, and proves its properties
in Dafny:

- `common.dfy` (module `Common`): `Option`, `Result`, the scalar JSON values a tool call
  carries, Python truthiness, and the exceptions that cross the tool boundary. Each
  exception's `Message()` is the `str(e)` that ends up in an envelope.
- `gmail.dfy` (module `Gmail`, from `src/gmail_client.py`):
  - case-insensitive header lookup;
  - choice of the body among the top-level MIME parts;
  - the mapping of a fetched message to an email summary;
  - the unread listing, which drops messages whose fetch raised an `HttpError` and keeps the order of the rest;
  - the assembly of a threaded draft reply.

  The provider is a `Service` value whose three calls are functions of their requests.
  The base64url and UTF-8 decoding of a body is an abstract `Decoder` that may fail.
  Loops that update locals are methods (`MessageBody`, `GetUnreadEmails`). Each is
  proved equal to a recursive specification function, and the properties are lemmas
  about that function. `MimeText` is the message object. Each header assignment on it
  appends a header.
- `handlers.dfy` (module `Handlers`, from `src/handlers.py`):
  - the ordered required-parameter check;
  - the `max_results` default;
  - the envelopes of both tools.

  The module-global `gmail_client` is the field of class `GmailTools`. Its two handler
  methods read that field and are proved equal to the pure envelope functions.
- `server.dfy` (module `Server`, from `src/server.py`): the closed dispatch by tool name
  with its unknown-tool envelope, and the two declared schemas as constant data. Lemmas
  tie the schemas to the handlers' required list and default.

Behaviours of the code worth knowing:

- A body that fails to decode does not skip its message. It raises an exception that is
  not an `HttpError` and escapes both `except HttpError` clauses. That aborts the whole
  listing, and the handler's failure envelope reports it (`CollectSucceedsIff`,
  `CollectFailure`, `UnreadEnvelope`).
  Any other exception of a provider call that is not an `HttpError` takes the same path.
  It aborts the listing (`CollectSucceedsIff`, `OneOfTwoRaised`), and it reaches the envelope without the
  `Failed to ...` prefix (`UnreadErrorText`, `DraftErrorText`).
- A `body` argument that is not a string is not submitted. `MIMEText` raises an
  `AttributeError` on it, which the handler reports (`DraftReply`, `DraftErrorText`).
- An HTML part with data is taken whenever the body is still empty when the scan reaches
  it, even if a plain-text part follows. A later `text/plain` part with data replaces it, and a `text/plain`
  part without data does not block it (`PlainPartDecides`, `InertPartIgnored`, `HtmlFallback`).
- An HTML part that decodes to `''` leaves the body empty, so the scan tries the next
  HTML part (`HtmlFallback`).

## Model

| member | source | states |
|---|---|---|
| `Common.Error.Message` | src/handlers.py:39-96 | the `str(e)` of each exception raised on the tool path: `Gmail client not initialized` (src/handlers.py:39, :80), `Missing required parameter: <p>` (:77), `Failed to fetch unread emails: <e>` and `Failed to create draft reply: <e>` (src/gmail_client.py:119, :268), a decode or other escaping exception's own text, `MIMEText`'s `'<type>' object has no attribute 'encode'`, and `Unknown tool: <name>` (src/server.py:97) |
| `Gmail.GetHeader` | src/gmail_client.py:165-178 | the value is that of the first header whose name equals the target ignoring case, and `''` when none matches |
| `Gmail.GetHeaderFirstMatch` | src/gmail_client.py:175-177 | the first matching header decides the result, whatever headers follow it |
| `Gmail.GetHeaderAbsent` | src/gmail_client.py:178 | with no matching header the result is `''`, never an error |
| `Gmail.GetHeaderCaseInsensitive` | src/gmail_client.py:176 | two names that lower-case alike give the same value |
| `Gmail.SubjectSpellings` | src/gmail_client.py:176 | `Subject`, `subject` and `SUBJECT` look up the same value |
| `Gmail.MessageBody` | src/gmail_client.py:180-212 | the loop with its mutable `body` and `break` returns exactly the body, or the decode error, of the specification `Body`, which scans `parts` with the recursive `ScanParts` that the lemmas below are about |
| `Gmail.PlainPartDecides` | src/gmail_client.py:193-199 | the first `text/plain` part with data decides the body and ends the scan, whatever text an earlier HTML part set, provided the HTML parts the scan decodes before it (those reached while the body is still `''`) decode; other parts may hold anything |
| `Gmail.InertPartIgnored` | src/gmail_client.py:193-204 | adding a part that is neither plain nor HTML with data leaves the scan's outcome unchanged, wherever it is inserted; this covers a plain part without data and any other MIME type |
| `Gmail.NonEmptyBodyKept` | src/gmail_client.py:200 | once the body is non-empty, later HTML parts no longer change it |
| `Gmail.HtmlFallback` | src/gmail_client.py:200-204 | with no plain part carrying data, and every HTML part reached while the body is still `''` decoding, the body is the first HTML part that decodes to non-empty text, or `''`; attachments and later HTML parts are never decoded |
| `Gmail.LaterHtmlNeverDecoded` | src/gmail_client.py:200 | an HTML part after one that set a non-empty body is never decoded: whatever its data, the body is the first part's text |
| `Gmail.NoTextPartEmptyBody` | src/gmail_client.py:189-204 | when no plain or HTML part carries data, the body is `''` |
| `Gmail.ScanFailureIsDecodeFailure` | src/gmail_client.py:196-204 | the scan fails only with the error of decoding some plain or HTML part's data, and cannot fail when all such data decodes |
| `Gmail.SinglePartBody` | src/gmail_client.py:205-212 | a payload without `parts` yields its decoded `body.data`, or `''` without data; a `parts` key, even an empty list, ignores `body.data` |
| `Gmail.MessageDetails` | src/gmail_client.py:121-163 | an `HttpError` on the fetch gives `None`; any other exception of the fetch, and a decode error, escape as a failure; otherwise the summary carries the listed id, the thread id, the chosen body, the `Subject`, `From`, `Date` and `Message-ID` header values (`''` when missing), the snippet (`''` when missing) and the labels (`[]` when missing) |
| `Gmail.GetMessageDetails` | src/gmail_client.py:130-163 | the method that builds the summary through `MessageBody` returns exactly `MessageDetails` |
| `Gmail.GetUnreadEmails` | src/gmail_client.py:85-119 | the append loop returns exactly the specification function `UnreadEmails`: an `HttpError` of the list call fails with `Failed to fetch unread emails: ...`, any other exception of it escapes unchanged, absent or empty `messages` gives `[]`, and otherwise the result is `Collect` of the listed ids, which processes each id's details in order |
| `Gmail.CollectKeepsListedOrder` | src/gmail_client.py:108-112 | the ids of a successful `Collect` are exactly the listed ids whose fetch succeeded, in listed order, so the listing has at most as many entries as were listed; each entry is the summary of its own id |
| `Gmail.CollectAllFetched` | src/gmail_client.py:108-112 | when every detail fetch succeeds, the listing has one entry per listed id |
| `Gmail.CollectSucceedsIff` | src/gmail_client.py:108-112 | a listing succeeds exactly when every listed id's details succeed (fetched, or skipped after an `HttpError`); one id whose details raise anything else aborts it |
| `Gmail.CollectFailure` | src/gmail_client.py:108-112 | a listing fails only with the error of the first listed id whose details raise one that is not an `HttpError`, and returns no partial list |
| `Gmail.OneOfTwoFetched` | src/gmail_client.py:109-112 | with two listed ids, the first fetched and the second failing with an `HttpError`, the listing is the first summary alone |
| `Gmail.OneOfTwoRaised` | src/gmail_client.py:109-117 | with two listed ids, the first fetched and the second failing with an exception that is not an `HttpError`, the listing fails with that exception and the first summary is lost |
| `Gmail.AtMostListed` | src/gmail_client.py:96-112 | if the provider returns at most n ids, the listing has at most n entries |
| `Gmail.MimeText.constructor` | src/gmail_client.py:230 | `MIMEText(body)` starts a message with the given (string) body and no headers of its own setting |
| `Gmail.MimeText.AddHeader` | src/gmail_client.py:231-237 | assigning a header appends it to the message's headers |
| `Gmail.ReplyHeadersThreading` | src/gmail_client.py:230-237 | the header list `ReplyHeaders` of the message has exactly one `to` and one `subject`; `In-Reply-To` and `References` are both set to `in_reply_to` exactly when that value is truthy, and neither is set otherwise |
| `Gmail.ReplyRequest` | src/gmail_client.py:245-250 | the submitted draft is bound to the given thread id and carries the given body and exactly the reply headers of `ReplyHeadersThreading` |
| `Gmail.DraftReply` | src/gmail_client.py:228-268 | a body that is not a string fails with `MIMEText`'s `AttributeError` before any call; otherwise success carries the draft id, the message id and the message's thread id from the response, with `success` true; an `HttpError` fails with `Failed to create draft reply: ...`, and any other exception of the call escapes unchanged |
| `Gmail.BuildReply` | src/gmail_client.py:230-237 | setting the headers one at a time on a new message yields exactly the reply headers of `ReplyHeadersThreading` and the given body |
| `Gmail.CreateDraftReply` | src/gmail_client.py:228-268 | the method that assembles the message, submits the draft and maps the response returns exactly `DraftReply` |
| `Handlers.MissingRequired` | src/handlers.py:74-77 | the result is none exactly when every required key is present, whatever the values; otherwise it is the first absent parameter, and every parameter before it is present |
| `Handlers.FirstMissing` | src/handlers.py:74-77 | the loop with its early exit returns exactly `MissingRequired` |
| `Handlers.MaxResults` | src/handlers.py:36 | an absent `max_results` becomes 10; a present one is passed through unchanged |
| `Handlers.UnreadEnvelope` | src/handlers.py:26-55 | the `emails` key is always present; an uninitialized client gives `Gmail client not initialized`; success holds exactly when the client's listing succeeds, with `count` equal to the length of `emails`; on failure, `emails` is `[]` and `error` is the exception text |
| `Handlers.DraftArgs` | src/handlers.py:82-88 | `thread_id`, `to`, `subject` and `body` are passed to the client unchanged; an absent `in_reply_to` is passed as `None`, a present one unchanged |
| `Handlers.DraftEnvelope` | src/handlers.py:58-97 | a missing parameter gives `Missing required parameter: <name>` before the initialization check; an uninitialized client comes next; success returns the client's result `ClientDraft` (the client's `DraftReply` on the arguments of `DraftArgs`) unchanged; every failure is exactly the `{success: False, error}` envelope |
| `Handlers.DraftSubmitsArguments` | src/handlers.py:82-90 | a successful call submitted the reply built from its own `thread_id`, `to`, `subject`, `body` and `in_reply_to`, bound to that `thread_id`, and returns the accepted draft's ids |
| `Handlers.ValidationBeforeClient` | src/handlers.py:74-82 | when a parameter is missing, the envelope is the same whatever client, or none, is installed |
| `Handlers.MissingBodyNamed` | src/handlers.py:74-77 | a call that omits only `body` is refused with `Missing required parameter: body` |
| `Handlers.UnreadErrorText` | src/handlers.py:41-55 | the listing envelope's `error` is `Failed to fetch unread emails: <e>` for an `HttpError` of the list call, and the exception's own text for any other |
| `Handlers.DraftErrorText` | src/handlers.py:82-97 | with every required key present, a `body` that is null, a boolean, an integer or a float gives `'<type>' object has no attribute 'encode'`; an `HttpError` of the draft call gives `Failed to create draft reply: <e>`, any other exception its own text |
| `Handlers.GmailTools.constructor` | src/handlers.py:10 | the global client starts as `None` |
| `Handlers.GmailTools.InitializeGmailClient` | src/handlers.py:13-23 | initialization installs the given client |
| `Handlers.GmailTools.GetUnreadEmails` | src/handlers.py:35-55 | the handler applied to the installed client returns exactly `UnreadEnvelope` |
| `Handlers.GmailTools.CreateDraftReply` | src/handlers.py:72-97 | the handler applied to the installed client returns exactly `DraftEnvelope` |
| `Server.ParseTool` | src/server.py:92-97 | only the two declared names map to a tool, and each to the tool of that name |
| `Server.ParseToolName` | src/server.py:92-95 | each tool's name routes back to that tool |
| `Server.CallTool` | src/server.py:86-115 | the two names reach their handlers; every other name gives `Unknown tool: <name>` in a `{success, error}` envelope; every outcome is an envelope |
| `Server.RouteDeterminesEnvelope` | src/server.py:92-97 | a listing envelope comes from `get_unread_emails` and only from it; a draft comes only from `create_draft_reply`; a success only from a declared tool |
| `Server.ListTools` | src/server.py:35-82 | exactly two tools are declared, named as the dispatch branches, with the draft tool's `required` list equal to the handler's; `max_results` defaults to the handler's 10 |
| `Server.DraftSchemaProperties` | src/server.py:57-80 | the draft schema declares the four required parameters in order, then `in_reply_to` |
| `Server.SchemaRequiredMatchesHandler` | src/server.py:80 | a call that supplies every name in the schema's `required` list passes the handler's check |
| `Server.SchemaDefaultMatchesHandler` | src/server.py:48 | a call without `max_results` forwards the schema's default to the provider |

## Left out

- OAuth in `authenticate` is not modelled: token-file I/O, refresh, the browser flow and
  the `FileNotFoundError` when the credentials file is missing. It is side-effecting code
  of an auth library. A `GmailClient` here is the value after `authenticate` has set
  `service`. Nothing later updates it, which is why it is a datatype, not a class.
- Every `service.users()...execute()` HTTP call is an abstract function of `Service`:
  the list call of `max_results`, the detail fetch of an id, and the draft creation of
  its request. Identical requests therefore get identical answers. Each outcome is a
  response, an `HttpError`, or some other exception with its text. Which exceptions
  the HTTP library raises is not modelled.
- MIME serialization (`MIMEText`, `as_bytes`) and base64url encoding are not modelled.
  The submitted message is its header list and body. `MimeText` leaves out the
  `Content-Type`, `MIME-Version` and `Content-Transfer-Encoding` headers that `MIMEText`
  adds itself.
- Base64url and UTF-8 decoding are abstract (`Decoder`), so Python's lenient
  `urlsafe_b64decode` is not reproduced.
- `KeyError` paths are not modelled. The Gmail API always supplies these keys, so the
  datatypes assume them: `payload`, `headers`, `threadId`, `mimeType`, each part's
  `body`, a payload's own `body` when it has no `parts`, a header's `name` and `value`,
  a listed message's `id`, and the draft response's `id`, `message.id` and
  `message.threadId`. The model lacks the exception that a missing key would raise.
  In particular `Payload.data == None` stands for a payload `body` without `data`,
  which gives `''`. It does not stand for a payload with no `body` key, where the
  source raises a `KeyError` that aborts the listing.
- `Gmail.GetHeader`: lower-casing is ASCII only. Python's `str.lower` also folds
  non-ASCII letters.
- Nested `parts` of a part are not represented, because the scan never reads them.
- Argument values are scalar JSON only: null, booleans, integers, floats (as `real`) and
  strings. Arrays and objects are not modelled, nor are the non-finite floats (`NaN`,
  `Infinity`) that Python's JSON reader also accepts. A non-string
  `body` is refused as `MIMEText` refuses it. A non-string header value (`to`,
  `subject`, `in_reply_to`) is kept in the header list as given. The failure it may
  cause when the message is serialized is not modelled.
- `Gmail.AtMostListed`: the `max_results` cap is stated under the assumption that the
  provider honours it. The client only forwards the value.
- The asynchronous stdio server runtime and `main` are not modelled, nor are the
  `json.dumps` text formatting of an envelope, dotenv, logging, and the module-level
  `initialize_gmail_client` call at import of `src/server.py`.
- The modules `.client` and `.tools` that `src/handlers.py` and `src/server.py` import
  are not part of this model. They are taken to be `src/gmail_client.py` and
  `src/handlers.py`.
- The `__main__` demonstration at the end of `src/gmail_client.py` is not modelled.
