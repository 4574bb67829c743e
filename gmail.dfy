/** The mail gateway: a Gmail client whose provider calls are abstract.
    It looks up headers, picks a message body out of its MIME parts, maps a
    fetched message to an email summary, lists the unread messages, and
    assembles and submits a threaded draft reply. */
module Gmail {
  import opened Common

  // ---------------------------------------------------------------------
  // Provider data, as already parsed from the Gmail API's JSON
  // ---------------------------------------------------------------------

  /** One entry of `payload.headers`. */
  datatype Header = Header(name: string, value: string)

  /** One top-level entry of `payload.parts`: its `mimeType` and, when the
      part's `body` has a `data` key, that base64url text. */
  datatype Part = Part(mimeType: string, data: Option<string>)

  /** A message `payload`: the headers, the `parts` list when the key is
      present, and the payload's own `body.data` when present. */
  datatype Payload = Payload(headers: seq<Header>, parts: Option<seq<Part>>, data: Option<string>)

  /** A message fetched in `full` format. `snippet` and `labelIds` are
      optional keys of the response. */
  datatype Message = Message(threadId: string, snippet: Option<string>, labelIds: Option<seq<string>>, payload: Payload)

  /** Base64url decoding followed by UTF-8 decoding of a body's `data`;
      `Failure(m)` is the exception it raises, with `m` its `str(e)`. */
  type Decoder = string -> Result<string, string>

  /** Outcome of the unread-list call: the response's `messages` ids when
      that key is present, the provider's `HttpError` text, or the text of
      any other exception `execute()` raises. */
  datatype ListOutcome = Listed(messages: Option<seq<string>>) | ListHttpError(error: string) | ListRaised(error: string)

  /** Outcome of the detail fetch of one message. */
  datatype FetchOutcome = Fetched(message: Message) | FetchHttpError(error: string) | FetchRaised(error: string)

  /** A header set on the outgoing message, with the value passed in. */
  datatype MimeHeader = MimeHeader(name: string, value: Json)

  /** The outgoing plain-text message: the headers in the order set, and its body. */
  datatype MimeContent = MimeContent(headers: seq<MimeHeader>, body: string)

  /** The `draft_body` submitted to the provider: the encoded message and the thread it joins. */
  datatype DraftRequest = DraftRequest(raw: MimeContent, threadId: Json)

  /** The fields of the provider's draft response that the client reads. */
  datatype DraftResponse = DraftResponse(id: string, messageId: string, messageThreadId: string)

  datatype DraftOutcome = DraftAccepted(draft: DraftResponse) | DraftHttpError(error: string) | DraftRaised(error: string)

  /** The authenticated Gmail service: each provider call as a function of its request. */
  datatype Service = Service(
    listUnread: Json -> ListOutcome,
    getMessage: string -> FetchOutcome,
    createDraft: DraftRequest -> DraftOutcome)

  /** A `GmailClient` after `authenticate` has set its `service`. */
  datatype GmailClient = GmailClient(service: Service, decode: Decoder)

  /** The dictionary `_get_message_details` builds. */
  datatype EmailSummary = EmailSummary(
    emailId: string, threadId: string, messageId: string, sender: string,
    subject: string, snippet: string, body: string, date: string, labels: seq<string>)

  /** The dictionary `create_draft_reply` returns on success. */
  datatype DraftResult = DraftResult(draftId: string, messageId: string, threadId: string, success: bool)

  // ---------------------------------------------------------------------
  // Header lookup
  // ---------------------------------------------------------------------

  /** ASCII lower-casing, standing for Python's `str.lower`. */
  function LowerChar(c: char): char
  {
    if 'A' <= c <= 'Z' then (c as int + 32) as char else c
  }

  function Lower(s: string): (r: string)
    ensures |r| == |s|
    ensures forall i | 0 <= i < |s| :: r[i] == LowerChar(s[i])
  {
    seq(|s|, i requires 0 <= i < |s| => LowerChar(s[i]))
  }

  predicate NameMatches(h: Header, name: string)
  {
    Lower(h.name) == Lower(name)
  }

  /** The headers whose name equals `name` ignoring case, in their order. */
  function Matching(headers: seq<Header>, name: string): (r: seq<Header>)
    ensures |r| <= |headers|
    ensures forall h | h in r :: h in headers && NameMatches(h, name)
  {
    if headers == [] then []
    else (if NameMatches(headers[0], name) then [headers[0]] else []) + Matching(headers[1..], name)
  }

  /** `_get_header`: the value of the first header named `name` (ignoring
      case), or the empty string when there is none. */
  function GetHeader(headers: seq<Header>, name: string): (r: string)
    ensures r == if Matching(headers, name) == [] then "" else Matching(headers, name)[0].value
  {
    if headers == [] then ""
    else if NameMatches(headers[0], name) then headers[0].value
    else GetHeader(headers[1..], name)
  }

  /** The first matching header decides, whatever follows it. */
  lemma {:induction false} GetHeaderFirstMatch(headers: seq<Header>, name: string, i: nat)
    requires i < |headers| && NameMatches(headers[i], name)
    requires forall j | 0 <= j < i :: !NameMatches(headers[j], name)
    ensures GetHeader(headers, name) == headers[i].value
  {
    if i > 0 {
      GetHeaderFirstMatch(headers[1..], name, i - 1);
    }
  }

  /** No matching header gives the empty string, never an error. */
  lemma {:induction false} GetHeaderAbsent(headers: seq<Header>, name: string)
    requires forall j | 0 <= j < |headers| :: !NameMatches(headers[j], name)
    ensures GetHeader(headers, name) == ""
  {
    if headers != [] {
      GetHeaderAbsent(headers[1..], name);
    }
  }

  /** Two names that lower-case alike look up the same value. */
  lemma {:induction false} GetHeaderCaseInsensitive(headers: seq<Header>, a: string, b: string)
    requires Lower(a) == Lower(b)
    ensures GetHeader(headers, a) == GetHeader(headers, b)
  {
    if headers != [] {
      GetHeaderCaseInsensitive(headers[1..], a, b);
    }
  }

  lemma SubjectSpellings(headers: seq<Header>)
    ensures GetHeader(headers, "Subject") == GetHeader(headers, "subject") == GetHeader(headers, "SUBJECT")
  {
    assert Lower("Subject") == Lower("subject") == Lower("SUBJECT") by {
      assert forall i | 0 <= i < 7 :: LowerChar("Subject"[i]) == LowerChar("subject"[i]) == LowerChar("SUBJECT"[i]);
    }
    GetHeaderCaseInsensitive(headers, "Subject", "subject");
    GetHeaderCaseInsensitive(headers, "subject", "SUBJECT");
  }

  // ---------------------------------------------------------------------
  // Body selection
  // ---------------------------------------------------------------------

  const PlainText := "text/plain"
  const Html := "text/html"

  predicate HasData(p: Part) { p.data.Some? }

  predicate IsPlainWithData(p: Part) { p.mimeType == PlainText && HasData(p) }

  predicate IsHtmlWithData(p: Part) { p.mimeType == Html && HasData(p) }

  /** The scan of `_get_message_body` over the remaining `parts`, with
      `body` the text chosen so far. */
  function ScanParts(parts: seq<Part>, body: string, decode: Decoder): Result<string, string>
  {
    if parts == [] then Success(body)
    else
      var p := parts[0];
      if p.mimeType == PlainText then
        if HasData(p) then decode(p.data.value)
        else ScanParts(parts[1..], body, decode)
      else if p.mimeType == Html && body == "" && HasData(p) then
        match decode(p.data.value)
        case Success(text) => ScanParts(parts[1..], text, decode)
        case Failure(e) => Failure(e)
      else ScanParts(parts[1..], body, decode)
  }

  /** The body `_get_message_body` returns, or the decode error it raises. */
  function Body(payload: Payload, decode: Decoder): Result<string, string>
  {
    match payload.parts
    case Some(parts) => ScanParts(parts, "", decode)
    case None => if payload.data.Some? then decode(payload.data.value) else Success("")
  }

  /** `_get_message_body`, with its mutable `body` and its `break`. */
  method MessageBody(payload: Payload, decode: Decoder) returns (r: Result<string, string>)
    ensures r == Body(payload, decode)
  {
    var body := "";
    if payload.parts.Some? {
      var parts := payload.parts.value;
      var i := 0;
      while i < |parts|
        invariant 0 <= i <= |parts|
        invariant ScanParts(parts, "", decode) == ScanParts(parts[i..], body, decode)
      {
        var part := parts[i];
        if part.mimeType == PlainText {
          if HasData(part) {
            var decoded := decode(part.data.value);
            if decoded.Failure? {
              return Failure(decoded.error);
            }
            body := decoded.value;
            break;
          }
        } else if part.mimeType == Html && body == "" {
          if HasData(part) {
            var decoded := decode(part.data.value);
            if decoded.Failure? {
              return Failure(decoded.error);
            }
            body := decoded.value;
          }
        }
        i := i + 1;
      }
    } else if payload.data.Some? {
      var decoded := decode(payload.data.value);
      if decoded.Failure? {
        return Failure(decoded.error);
      }
      body := decoded.value;
    }
    return Success(body);
  }

  /** A plain or HTML part with data: the only parts the scan may decode. */
  predicate IsTextWithData(p: Part) { IsPlainWithData(p) || IsHtmlWithData(p) }

  /** Every plain or HTML part with data among the first `n` decodes
      without error; other parts, which the scan never decodes, may hold
      anything. */
  ghost predicate TextDecodesUpTo(parts: seq<Part>, decode: Decoder, n: int)
  {
    forall j | 0 <= j < n && j < |parts| && IsTextWithData(parts[j]) :: decode(parts[j].data.value).Success?
  }

  /** Every HTML part with data before part `j` decodes to `''`: while
      the scan is at `j`, no HTML part has set the body yet. */
  ghost predicate EarlierHtmlEmpty(parts: seq<Part>, decode: Decoder, j: int)
  {
    forall k | 0 <= k < j && k < |parts| && IsHtmlWithData(parts[k]) :: decode(parts[k].data.value) == Success("")
  }

  /** Starting from `body`, every HTML part with data among the first `n`
      that the scan decodes, because the body is still `''` when it gets
      there, decodes without error. HTML parts after the first non-empty
      text, and every HTML part when `body` starts non-empty, may hold
      anything. */
  ghost predicate ReachedHtmlDecodes(parts: seq<Part>, body: string, decode: Decoder, n: int)
  {
    body == "" ==>
      forall j | 0 <= j < n && j < |parts| && IsHtmlWithData(parts[j]) && EarlierHtmlEmpty(parts, decode, j) ::
        decode(parts[j].data.value).Success?
  }

  /** The body after the scan has looked at part `p` that is not a plain
      part with data. */
  ghost function NextBody(p: Part, body: string, decode: Decoder): string
  {
    if IsHtmlWithData(p) && body == "" && decode(p.data.value).Success? then decode(p.data.value).value else body
  }

  /** The hypothesis of `ReachedHtmlDecodes` carries over to the rest of
      the parts, with the body the first part leaves. */
  lemma ReachedHtmlDecodesRest(parts: seq<Part>, body: string, decode: Decoder, n: int)
    requires parts != [] && !IsPlainWithData(parts[0])
    requires ReachedHtmlDecodes(parts, body, decode, n)
    ensures 0 < n && IsHtmlWithData(parts[0]) && body == "" ==> decode(parts[0].data.value).Success?
    ensures ReachedHtmlDecodes(parts[1..], NextBody(parts[0], body, decode), decode, n - 1)
  {
    if 0 < n && IsHtmlWithData(parts[0]) && body == "" {
      assert EarlierHtmlEmpty(parts, decode, 0);
    }
    var next := NextBody(parts[0], body, decode);
    if next == "" {
      assert body == "";
      forall j | 0 <= j < n - 1 && j < |parts[1..]| && IsHtmlWithData(parts[1..][j]) && EarlierHtmlEmpty(parts[1..], decode, j)
        ensures decode(parts[1..][j].data.value).Success?
      {
        assert EarlierHtmlEmpty(parts, decode, j + 1) by {
          forall k | 0 <= k < j + 1 && k < |parts| && IsHtmlWithData(parts[k])
            ensures decode(parts[k].data.value) == Success("")
          {
            if k > 0 {
              assert parts[k] == parts[1..][k - 1];
            } else {
              assert EarlierHtmlEmpty(parts, decode, 0);
            }
          }
        }
        assert parts[j + 1] == parts[1..][j];
      }
    }
  }

  /** The first `text/plain` part with data decides the body and ends the
      scan, whatever text an earlier `text/html` part set. */
  lemma {:induction false} PlainPartDecides(parts: seq<Part>, body: string, decode: Decoder, i: nat)
    requires i < |parts| && IsPlainWithData(parts[i])
    requires forall j | 0 <= j < i :: !IsPlainWithData(parts[j])
    requires ReachedHtmlDecodes(parts, body, decode, i)
    ensures ScanParts(parts, body, decode) == decode(parts[i].data.value)
  {
    if i > 0 {
      var p := parts[0];
      assert !IsPlainWithData(p);
      ReachedHtmlDecodesRest(parts, body, decode, i);
      var next := NextBody(p, body, decode);
      assert ScanParts(parts, body, decode) == ScanParts(parts[1..], next, decode);
      PlainPartDecides(parts[1..], next, decode, i - 1);
    }
  }

  /** A part that is neither a plain nor an HTML part with data (a plain
      part without data, or any other MIME type) has no effect on the scan. */
  lemma {:induction false} InertPartIgnored(parts: seq<Part>, k: nat, p: Part, body: string, decode: Decoder)
    requires k <= |parts|
    requires !IsPlainWithData(p) && !IsHtmlWithData(p)
    ensures ScanParts(parts[..k] + [p] + parts[k..], body, decode) == ScanParts(parts, body, decode)
  {
    var withP := parts[..k] + [p] + parts[k..];
    if k == 0 {
      assert withP[1..] == parts;
    } else {
      var q := parts[0];
      assert withP[0] == q;
      assert withP[1..] == parts[1..][..k - 1] + [p] + parts[1..][k - 1..];
      if q.mimeType == PlainText && HasData(q) {
      } else if q.mimeType == Html && body == "" && HasData(q) {
        if decode(q.data.value).Success? {
          InertPartIgnored(parts[1..], k - 1, p, decode(q.data.value).value, decode);
        }
      } else {
        InertPartIgnored(parts[1..], k - 1, p, body, decode);
      }
    }
  }

  /** The first `text/html` part with data whose text is not empty, or the
      empty string when there is none. */
  ghost function FirstHtmlText(parts: seq<Part>, decode: Decoder): string
  {
    if parts == [] then ""
    else if IsHtmlWithData(parts[0]) && decode(parts[0].data.value).Success?
            && decode(parts[0].data.value).value != "" then
      decode(parts[0].data.value).value
    else FirstHtmlText(parts[1..], decode)
  }

  /** Once the body is not empty, and with no plain part with data left,
      the rest of the scan keeps it. */
  lemma {:induction false} NonEmptyBodyKept(parts: seq<Part>, body: string, decode: Decoder)
    requires body != ""
    requires forall j | 0 <= j < |parts| :: !IsPlainWithData(parts[j])
    ensures ScanParts(parts, body, decode) == Success(body)
  {
    if parts != [] {
      NonEmptyBodyKept(parts[1..], body, decode);
    }
  }

  /** With no plain part with data, the body is the first HTML part that
      decodes to a non-empty text; HTML parts that decode to `''` leave the
      body empty and the scan goes on. */
  lemma {:induction false} HtmlFallback(parts: seq<Part>, decode: Decoder)
    requires forall j | 0 <= j < |parts| :: !IsPlainWithData(parts[j])
    requires ReachedHtmlDecodes(parts, "", decode, |parts|)
    ensures ScanParts(parts, "", decode) == Success(FirstHtmlText(parts, decode))
  {
    if parts != [] {
      var p := parts[0];
      ReachedHtmlDecodesRest(parts, "", decode, |parts|);
      if IsHtmlWithData(p) {
        var text := decode(p.data.value).value;
        if text == "" {
          HtmlFallback(parts[1..], decode);
        } else {
          NonEmptyBodyKept(parts[1..], text, decode);
        }
      } else {
        HtmlFallback(parts[1..], decode);
      }
    }
  }

  /** An HTML part after one that set a non-empty body is never decoded:
      whatever its data, the fallback hypothesis holds and the body is the
      first part's text. */
  lemma LaterHtmlNeverDecoded(d1: string, d2: string, decode: Decoder)
    requires decode(d1).Success? && decode(d1).value != ""
    ensures ReachedHtmlDecodes([Part(Html, Some(d1)), Part(Html, Some(d2))], "", decode, 2)
    ensures ScanParts([Part(Html, Some(d1)), Part(Html, Some(d2))], "", decode) == decode(d1)
  {
    var parts := [Part(Html, Some(d1)), Part(Html, Some(d2))];
    assert IsHtmlWithData(parts[0]) && decode(parts[0].data.value) != Success("");
    assert !EarlierHtmlEmpty(parts, decode, 1);
    assert parts[1..] == [Part(Html, Some(d2))];
    NonEmptyBodyKept(parts[1..], decode(d1).value, decode);
  }

  /** No plain or HTML part carrying data gives the empty body, never an error. */
  lemma {:induction false} NoTextPartEmptyBody(parts: seq<Part>, decode: Decoder)
    requires forall j | 0 <= j < |parts| :: !IsPlainWithData(parts[j]) && !IsHtmlWithData(parts[j])
    ensures ScanParts(parts, "", decode) == Success("")
  {
    if parts != [] {
      NoTextPartEmptyBody(parts[1..], decode);
    }
  }

  /** The scan fails only with the error of decoding some plain or HTML
      part's data, and cannot fail when all such data decodes. */
  lemma {:induction false} ScanFailureIsDecodeFailure(parts: seq<Part>, body: string, decode: Decoder)
    ensures ScanParts(parts, body, decode).Failure? ==>
      exists j | 0 <= j < |parts| :: IsTextWithData(parts[j]) && decode(parts[j].data.value) == ScanParts(parts, body, decode)
    ensures TextDecodesUpTo(parts, decode, |parts|) ==> ScanParts(parts, body, decode).Success?
  {
    if parts != [] {
      var p := parts[0];
      var next := if p.mimeType == Html && body == "" && HasData(p) && decode(p.data.value).Success?
                  then decode(p.data.value).value else body;
      ScanFailureIsDecodeFailure(parts[1..], next, decode);
      if ScanParts(parts, body, decode).Failure? && !(IsTextWithData(p) && decode(p.data.value) == ScanParts(parts, body, decode)) {
        assert ScanParts(parts, body, decode) == ScanParts(parts[1..], next, decode);
        var j :| 0 <= j < |parts[1..]| && IsTextWithData(parts[1..][j])
                 && decode(parts[1..][j].data.value) == ScanParts(parts[1..], next, decode);
        assert parts[j + 1] == parts[1..][j];
      }
      if TextDecodesUpTo(parts, decode, |parts|) {
        assert TextDecodesUpTo(parts[1..], decode, |parts| - 1) by {
          forall j | 0 <= j < |parts| - 1 && IsTextWithData(parts[1..][j])
            ensures decode(parts[1..][j].data.value).Success?
          {
            assert parts[1..][j] == parts[j + 1];
          }
        }
      }
    }
  }

  /** A payload without a `parts` key decodes its own `body.data`, or is
      empty without one; a `parts` key, even an empty list, ignores it. */
  lemma SinglePartBody(payload: Payload, decode: Decoder)
    ensures payload.parts.None? && payload.data.Some? ==> Body(payload, decode) == decode(payload.data.value)
    ensures payload.parts.None? && payload.data.None? ==> Body(payload, decode) == Success("")
    ensures payload.parts == Some([]) ==> Body(payload, decode) == Success("")
  {
  }

  // ---------------------------------------------------------------------
  // Message details
  // ---------------------------------------------------------------------

  /** `_get_message_details`: `Success(None)` when the fetch raised an
      `HttpError`; any other exception of the fetch, and the decode error,
      which that method does not catch, as `Failure`; otherwise the
      summary of the message, its headers looked up by name, with a
      missing header as `''`, a missing snippet as `''` and missing labels
      as `[]`. */
  function MessageDetails(client: GmailClient, msgId: string): (r: Result<Option<EmailSummary>, Error>)
    ensures r == Success(None) <==> client.service.getMessage(msgId).FetchHttpError?
    ensures r.Failure? <==>
      || client.service.getMessage(msgId).FetchRaised?
      || (client.service.getMessage(msgId).Fetched? && Body(client.service.getMessage(msgId).message.payload, client.decode).Failure?)
    ensures client.service.getMessage(msgId).FetchRaised? ==>
      r == Failure(Raised(client.service.getMessage(msgId).error))
    ensures client.service.getMessage(msgId).Fetched? && r.Failure? ==>
      r.error == DecodeFailed(Body(client.service.getMessage(msgId).message.payload, client.decode).error)
    ensures r.Success? && r.value.Some? ==>
      var m := client.service.getMessage(msgId).message;
      var e := r.value.value;
      && e.emailId == msgId
      && e.threadId == m.threadId
      && e.messageId == GetHeader(m.payload.headers, "Message-ID")
      && e.sender == GetHeader(m.payload.headers, "From")
      && e.subject == GetHeader(m.payload.headers, "Subject")
      && e.date == GetHeader(m.payload.headers, "Date")
      && (m.snippet.Some? ==> e.snippet == m.snippet.value)
      && (m.snippet.None? ==> e.snippet == "")
      && (m.labelIds.Some? ==> e.labels == m.labelIds.value)
      && (m.labelIds.None? ==> e.labels == [])
      && Success(e.body) == Body(m.payload, client.decode)
  {
    match client.service.getMessage(msgId)
    case FetchHttpError(_) => Success(None)
    case FetchRaised(e) => Failure(Raised(e))
    case Fetched(m) =>
      var headers := m.payload.headers;
      match Body(m.payload, client.decode)
      case Failure(e) => Failure(DecodeFailed(e))
      case Success(body) =>
        Success(Some(EmailSummary(
          emailId := msgId,
          threadId := m.threadId,
          messageId := GetHeader(headers, "Message-ID"),
          sender := GetHeader(headers, "From"),
          subject := GetHeader(headers, "Subject"),
          snippet := if m.snippet.Some? then m.snippet.value else "",
          body := body,
          date := GetHeader(headers, "Date"),
          labels := if m.labelIds.Some? then m.labelIds.value else [])))
  }

  /** `_get_message_details` as the client runs it, through `MessageBody`. */
  method GetMessageDetails(client: GmailClient, msgId: string) returns (r: Result<Option<EmailSummary>, Error>)
    ensures r == MessageDetails(client, msgId)
  {
    var outcome := client.service.getMessage(msgId);
    if outcome.FetchHttpError? {
      return Success(None);
    }
    if outcome.FetchRaised? {
      return Failure(Raised(outcome.error));
    }
    var m := outcome.message;
    var headers := m.payload.headers;
    var subject := GetHeader(headers, "Subject");
    var sender := GetHeader(headers, "From");
    var date := GetHeader(headers, "Date");
    var messageId := GetHeader(headers, "Message-ID");
    var body := MessageBody(m.payload, client.decode);
    if body.Failure? {
      return Failure(DecodeFailed(body.error));
    }
    var snippet := if m.snippet.Some? then m.snippet.value else "";
    var labels := if m.labelIds.Some? then m.labelIds.value else [];
    return Success(Some(EmailSummary(msgId, m.threadId, messageId, sender, subject, snippet, body.value, date, labels)));
  }

  // ---------------------------------------------------------------------
  // Listing unread messages
  // ---------------------------------------------------------------------

  /** `Success(es + t)` when `r` is `Success(t)`; a failure passes through. */
  function Prepend(es: seq<EmailSummary>, r: Result<seq<EmailSummary>, Error>): Result<seq<EmailSummary>, Error>
  {
    match r
    case Success(t) => Success(es + t)
    case Failure(e) => Failure(e)
  }

  lemma PrependNothing(r: Result<seq<EmailSummary>, Error>)
    ensures Prepend([], r) == r
  {
    if r.Success? {
      assert [] + r.value == r.value;
    }
  }

  /** The loop of `get_unread_emails` over the listed ids: the details of
      each id in order, minus the ones whose fetch failed; the first decode
      error ends it with no partial list. */
  function Collect(client: GmailClient, ids: seq<string>): Result<seq<EmailSummary>, Error>
  {
    if ids == [] then Success([])
    else
      match MessageDetails(client, ids[0])
      case Failure(e) => Failure(e)
      case Success(None) => Collect(client, ids[1..])
      case Success(Some(email)) => Prepend([email], Collect(client, ids[1..]))
  }

  /** `get_unread_emails`: an `HttpError` of the list call raises `Failed
      to fetch unread emails: ...`, any other exception of it escapes
      unchanged; an absent or empty `messages` list gives `[]`. */
  function UnreadEmails(client: GmailClient, maxResults: Json): Result<seq<EmailSummary>, Error>
  {
    match client.service.listUnread(maxResults)
    case ListHttpError(e) => Failure(ListFailed(e))
    case ListRaised(e) => Failure(Raised(e))
    case Listed(None) => Success([])
    case Listed(Some(ids)) => Collect(client, ids)
  }

  /** `get_unread_emails`, appending to `emails` in a loop. */
  method GetUnreadEmails(client: GmailClient, maxResults: Json) returns (r: Result<seq<EmailSummary>, Error>)
    ensures r == UnreadEmails(client, maxResults)
  {
    var results := client.service.listUnread(maxResults);
    if results.ListHttpError? {
      return Failure(ListFailed(results.error));
    }
    if results.ListRaised? {
      return Failure(Raised(results.error));
    }
    var messages := if results.messages.Some? then results.messages.value else [];
    assert UnreadEmails(client, maxResults) == Collect(client, messages);
    if messages == [] {
      return Success([]);
    }
    var emails := [];
    var i := 0;
    assert messages[0..] == messages;
    PrependNothing(Collect(client, messages));
    while i < |messages|
      invariant 0 <= i <= |messages|
      invariant Collect(client, messages) == Prepend(emails, Collect(client, messages[i..]))
    {
      var emailData := GetMessageDetails(client, messages[i]);
      CollectFrom(client, messages, i);
      if emailData.Failure? {
        return Failure(emailData.error);
      }
      if emailData.value.Some? {
        PrependTwice(emails, [emailData.value.value], Collect(client, messages[i + 1..]));
        emails := emails + [emailData.value.value];
      }
      i := i + 1;
    }
    assert messages[i..] == [] && emails + [] == emails;
    return Success(emails);
  }

  lemma CollectFrom(client: GmailClient, ids: seq<string>, i: nat)
    requires i < |ids|
    ensures Collect(client, ids[i..]) ==
      match MessageDetails(client, ids[i])
      case Failure(e) => Failure(e)
      case Success(None) => Collect(client, ids[i + 1..])
      case Success(Some(email)) => Prepend([email], Collect(client, ids[i + 1..]))
  {
  }

  lemma PrependTwice(a: seq<EmailSummary>, b: seq<EmailSummary>, r: Result<seq<EmailSummary>, Error>)
    ensures Prepend(a, Prepend(b, r)) == Prepend(a + b, r)
  {
    if r.Success? {
      assert a + (b + r.value) == (a + b) + r.value;
    }
  }

  /** The listed ids whose detail fetch did not raise an `HttpError`. */
  function Kept(client: GmailClient, ids: seq<string>): (r: seq<string>)
    ensures |r| <= |ids|
  {
    if ids == [] then []
    else (if client.service.getMessage(ids[0]).Fetched? then [ids[0]] else []) + Kept(client, ids[1..])
  }

  function EmailIds(es: seq<EmailSummary>): (r: seq<string>)
    ensures |r| == |es|
    ensures forall k | 0 <= k < |es| :: r[k] == es[k].emailId
  {
    if es == [] then [] else [es[0].emailId] + EmailIds(es[1..])
  }

  /** A successful listing keeps the listed order: its ids are exactly the
      listed ids whose fetch succeeded (so at most as many as listed), and
      each entry is the summary of its own id. */
  lemma {:induction false} CollectKeepsListedOrder(client: GmailClient, ids: seq<string>)
    requires Collect(client, ids).Success?
    ensures EmailIds(Collect(client, ids).value) == Kept(client, ids)
    ensures |Collect(client, ids).value| <= |ids|
    ensures forall e | e in Collect(client, ids).value :: MessageDetails(client, e.emailId) == Success(Some(e))
  {
    if ids != [] {
      CollectKeepsListedOrder(client, ids[1..]);
      var rest := Collect(client, ids[1..]).value;
      match MessageDetails(client, ids[0])
      case Success(None) =>
      case Success(Some(email)) =>
        assert Collect(client, ids).value == [email] + rest;
        assert ([email] + rest)[1..] == rest;
    }
  }

  /** When no detail fetch fails, every listed id yields one summary. */
  lemma {:induction false} CollectAllFetched(client: GmailClient, ids: seq<string>)
    requires forall k | 0 <= k < |ids| :: MessageDetails(client, ids[k]).Success? && MessageDetails(client, ids[k]).value.Some?
    ensures Collect(client, ids).Success? && |Collect(client, ids).value| == |ids|
  {
    if ids != [] {
      CollectAllFetched(client, ids[1..]);
    }
  }

  /** A listing fails only with the error of the first listed id whose
      details raise one that is not an `HttpError` (a decode error or any
      other exception of the fetch); ids before it were all fetched or
      skipped. */
  lemma {:induction false} CollectFailure(client: GmailClient, ids: seq<string>)
    requires Collect(client, ids).Failure?
    ensures exists k | 0 <= k < |ids| ::
      && MessageDetails(client, ids[k]) == Failure(Collect(client, ids).error)
      && forall j | 0 <= j < k :: MessageDetails(client, ids[j]).Success?
  {
    if MessageDetails(client, ids[0]).Success? {
      var rest := Collect(client, ids[1..]);
      assert rest.Failure? && rest.error == Collect(client, ids).error;
      CollectFailure(client, ids[1..]);
      var k :| 0 <= k < |ids[1..]| && MessageDetails(client, ids[1..][k]) == Failure(rest.error)
               && forall j | 0 <= j < k :: MessageDetails(client, ids[1..][j]).Success?;
      assert forall j | 0 <= j < k + 1 :: MessageDetails(client, ids[j]).Success? by {
        forall j | 0 <= j < k + 1 ensures MessageDetails(client, ids[j]).Success? {
          if j > 0 { assert ids[j] == ids[1..][j - 1]; }
        }
      }
      assert ids[k + 1] == ids[1..][k];
    }
  }

  /** A listing succeeds exactly when no listed id's details fail: a
      single id whose details raise something other than an `HttpError`
      (a decode error or any other exception of the fetch) aborts it. */
  lemma {:induction false} CollectSucceedsIff(client: GmailClient, ids: seq<string>)
    ensures Collect(client, ids).Success? <==> forall k | 0 <= k < |ids| :: MessageDetails(client, ids[k]).Success?
  {
    if ids != [] {
      CollectSucceedsIff(client, ids[1..]);
      assert forall k | 1 <= k < |ids| :: ids[k] == ids[1..][k - 1];
    }
  }

  /** Two listed ids, the first fetched and the second failing with an
      `HttpError`: the listing is the first message's summary alone. */
  lemma OneOfTwoFetched(client: GmailClient, maxResults: Json, id1: string, id2: string)
    requires client.service.listUnread(maxResults) == Listed(Some([id1, id2]))
    requires MessageDetails(client, id1).Success? && MessageDetails(client, id1).value.Some?
    requires client.service.getMessage(id2).FetchHttpError?
    ensures UnreadEmails(client, maxResults) == Success([MessageDetails(client, id1).value.value])
  {
    var email := MessageDetails(client, id1).value.value;
    assert [id1, id2][1..] == [id2];
    assert [id2][1..] == [];
    assert MessageDetails(client, id2) == Success(None);
    assert Collect(client, [id2]) == Success([]);
    assert [email] + [] == [email];
  }

  /** Two listed ids, the first fetched and the second failing with an
      exception that is not an `HttpError`: that exception escapes and the
      first summary is lost with the rest of the listing. */
  lemma OneOfTwoRaised(client: GmailClient, maxResults: Json, id1: string, id2: string)
    requires client.service.listUnread(maxResults) == Listed(Some([id1, id2]))
    requires MessageDetails(client, id1).Success? && MessageDetails(client, id1).value.Some?
    requires client.service.getMessage(id2).FetchRaised?
    ensures UnreadEmails(client, maxResults) == Failure(Raised(client.service.getMessage(id2).error))
  {
    var e := Raised(client.service.getMessage(id2).error);
    assert [id1, id2][1..] == [id2];
    assert MessageDetails(client, id2) == Failure(e);
    assert Collect(client, [id2]) == Failure(e);
    assert Collect(client, [id1, id2]) == Prepend([MessageDetails(client, id1).value.value], Collect(client, [id2]));
  }

  /** The `max_results` cap holds when the provider honours it: the listing
      never has more entries than the list call returned. */
  lemma AtMostListed(client: GmailClient, maxResults: Json, n: nat)
    requires client.service.listUnread(maxResults).Listed?
    requires client.service.listUnread(maxResults).messages.Some? ==>
      |client.service.listUnread(maxResults).messages.value| <= n
    requires UnreadEmails(client, maxResults).Success?
    ensures |UnreadEmails(client, maxResults).value| <= n
  {
    var listed := client.service.listUnread(maxResults);
    if listed.messages.Some? {
      assert UnreadEmails(client, maxResults) == Collect(client, listed.messages.value);
      CollectKeepsListedOrder(client, listed.messages.value);
    }
  }

  // ---------------------------------------------------------------------
  // Draft replies
  // ---------------------------------------------------------------------

  /** The `MIMEText` message being assembled; setting a header appends it,
      as assigning `message[name]` does. */
  class MimeText {
    var headers: seq<MimeHeader>
    const body: string

    constructor (body: string)
      ensures headers == [] && this.body == body
    {
      this.body := body;
      headers := [];
    }

    method AddHeader(name: string, value: Json)
      modifies this
      ensures headers == old(headers) + [MimeHeader(name, value)]
    {
      headers := headers + [MimeHeader(name, value)];
    }

    function Content(): (c: MimeContent)
      reads this
      ensures c.headers == headers && c.body == body
    {
      MimeContent(headers, body)
    }
  }

  /** The values of the headers set under `name`, in order. */
  function ValuesOf(headers: seq<MimeHeader>, name: string): (r: seq<Json>)
    ensures |r| <= |headers|
  {
    if headers == [] then []
    else (if headers[0].name == name then [headers[0].value] else []) + ValuesOf(headers[1..], name)
  }

  lemma {:induction false} ValuesOfConcat(a: seq<MimeHeader>, b: seq<MimeHeader>, name: string)
    ensures ValuesOf(a + b, name) == ValuesOf(a, name) + ValuesOf(b, name)
  {
    if a == [] {
      assert a + b == b;
    } else {
      assert (a + b)[0] == a[0];
      assert (a + b)[1..] == a[1..] + b;
      ValuesOfConcat(a[1..], b, name);
      var head := if a[0].name == name then [a[0].value] else [];
      calc {
        ValuesOf(a + b, name);
        head + ValuesOf(a[1..] + b, name);
        head + (ValuesOf(a[1..], name) + ValuesOf(b, name));
        (head + ValuesOf(a[1..], name)) + ValuesOf(b, name);
      }
    }
  }

  const ToHeader := "to"
  const SubjectHeader := "subject"
  const InReplyToHeader := "In-Reply-To"
  const ReferencesHeader := "References"

  /** The headers `create_draft_reply` sets, in the order it sets them. */
  function ReplyHeaders(to: Json, subject: Json, inReplyTo: Json): seq<MimeHeader>
  {
    [MimeHeader(ToHeader, to), MimeHeader(SubjectHeader, subject)]
    + if Truthy(inReplyTo) then [MimeHeader(InReplyToHeader, inReplyTo), MimeHeader(ReferencesHeader, inReplyTo)] else []
  }

  /** The message always carries one `to` and one `subject`; it carries
      `In-Reply-To` and `References`, both set to `inReplyTo`, exactly when
      `inReplyTo` is truthy, and neither otherwise. */
  lemma ReplyHeadersThreading(to: Json, subject: Json, inReplyTo: Json)
    ensures ValuesOf(ReplyHeaders(to, subject, inReplyTo), ToHeader) == [to]
    ensures ValuesOf(ReplyHeaders(to, subject, inReplyTo), SubjectHeader) == [subject]
    ensures ValuesOf(ReplyHeaders(to, subject, inReplyTo), InReplyToHeader) == if Truthy(inReplyTo) then [inReplyTo] else []
    ensures ValuesOf(ReplyHeaders(to, subject, inReplyTo), ReferencesHeader) == if Truthy(inReplyTo) then [inReplyTo] else []
  {
    ValuesOfReply(to, subject, inReplyTo, ToHeader);
    ValuesOfReply(to, subject, inReplyTo, SubjectHeader);
    ValuesOfReply(to, subject, inReplyTo, InReplyToHeader);
    ValuesOfReply(to, subject, inReplyTo, ReferencesHeader);
  }

  lemma ValuesOfReply(to: Json, subject: Json, inReplyTo: Json, name: string)
    ensures ValuesOf(ReplyHeaders(to, subject, inReplyTo), name) ==
      (if ToHeader == name then [to] else []) + (if SubjectHeader == name then [subject] else [])
      + (if Truthy(inReplyTo) && InReplyToHeader == name then [inReplyTo] else [])
      + (if Truthy(inReplyTo) && ReferencesHeader == name then [inReplyTo] else [])
  {
    var base := [MimeHeader(ToHeader, to), MimeHeader(SubjectHeader, subject)];
    var threading := if Truthy(inReplyTo) then [MimeHeader(InReplyToHeader, inReplyTo), MimeHeader(ReferencesHeader, inReplyTo)] else [];
    ValuesOfConcat(base, threading, name);
    ValuesOfPair(base[0], base[1], name);
    if Truthy(inReplyTo) {
      ValuesOfPair(threading[0], threading[1], name);
    }
  }

  lemma ValuesOfPair(h1: MimeHeader, h2: MimeHeader, name: string)
    ensures ValuesOf([h1, h2], name) ==
      (if h1.name == name then [h1.value] else []) + (if h2.name == name then [h2.value] else [])
  {
  }

  /** The draft request `create_draft_reply` submits. */
  function ReplyRequest(threadId: Json, to: Json, subject: Json, body: string, inReplyTo: Json): (q: DraftRequest)
    ensures q.threadId == threadId && q.raw.body == body
    ensures q.raw.headers == ReplyHeaders(to, subject, inReplyTo)
  {
    DraftRequest(MimeContent(ReplyHeaders(to, subject, inReplyTo), body), threadId)
  }

  /** `create_draft_reply`: `MIMEText` refuses a body that is not a
      string before anything is submitted; otherwise the provider's draft
      mapped to the result dictionary, `Failed to create draft reply: ...`
      on an `HttpError`, and any other exception of the call unchanged. */
  function DraftReply(client: GmailClient, threadId: Json, to: Json, subject: Json, body: Json, inReplyTo: Json): (r: Result<DraftResult, Error>)
    ensures !body.JStr? ==> r == Failure(BodyNotText(TypeName(body)))
    ensures body.JStr? ==>
      var outcome := client.service.createDraft(ReplyRequest(threadId, to, subject, body.s, inReplyTo));
      && (r.Failure? <==> !outcome.DraftAccepted?)
      && (outcome.DraftHttpError? ==> r == Failure(DraftFailed(outcome.error)))
      && (outcome.DraftRaised? ==> r == Failure(Raised(outcome.error)))
      && (r.Success? ==>
            && r.value.success
            && r.value.draftId == outcome.draft.id
            && r.value.messageId == outcome.draft.messageId
            && r.value.threadId == outcome.draft.messageThreadId)
  {
    if !body.JStr? then Failure(BodyNotText(TypeName(body)))
    else
      match client.service.createDraft(ReplyRequest(threadId, to, subject, body.s, inReplyTo))
      case DraftHttpError(e) => Failure(DraftFailed(e))
      case DraftRaised(e) => Failure(Raised(e))
      case DraftAccepted(d) => Success(DraftResult(d.id, d.messageId, d.messageThreadId, true))
  }

  /** The message `create_draft_reply` assembles, setting its headers one at a time. */
  method BuildReply(to: Json, subject: Json, body: string, inReplyTo: Json) returns (message: MimeText)
    ensures fresh(message)
    ensures message.Content() == MimeContent(ReplyHeaders(to, subject, inReplyTo), body)
  {
    message := new MimeText(body);
    message.AddHeader(ToHeader, to);
    message.AddHeader(SubjectHeader, subject);
    if Truthy(inReplyTo) {
      message.AddHeader(InReplyToHeader, inReplyTo);
      message.AddHeader(ReferencesHeader, inReplyTo);
    }
  }

  /** `create_draft_reply`: assemble the message, submit it and map the response. */
  method CreateDraftReply(client: GmailClient, threadId: Json, to: Json, subject: Json, body: Json, inReplyTo: Json)
    returns (r: Result<DraftResult, Error>)
    ensures r == DraftReply(client, threadId, to, subject, body, inReplyTo)
  {
    if !body.JStr? {
      return Failure(BodyNotText(TypeName(body)));
    }
    var message := BuildReply(to, subject, body.s, inReplyTo);
    var draftBody := DraftRequest(message.Content(), threadId);
    assert draftBody == ReplyRequest(threadId, to, subject, body.s, inReplyTo);
    var draft := client.service.createDraft(draftBody);
    if draft.DraftHttpError? {
      return Failure(DraftFailed(draft.error));
    }
    if draft.DraftRaised? {
      return Failure(Raised(draft.error));
    }
    return Success(DraftResult(draft.draft.id, draft.draft.messageId, draft.draft.messageThreadId, true));
  }
}
