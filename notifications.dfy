/** The notifier: two guard clauses (a destination number, then an access
    token and a phone-number id) and, when both pass and the token is a
    valid header value, one POST of the fixed
    `hello_world` template to the WhatsApp Cloud API messages endpoint. The
    HTTP transport is a parameter; JSON serialisation is left abstract, so a
    request carries its payload as a record. */
module Notifications {
  import opened Settings

  // ---------------------------------------------------------------------
  // string.IsNullOrWhiteSpace

  /** char.IsWhiteSpace: the Unicode space, line and paragraph separators,
      the controls U+0009 to U+000D, and U+0085. */
  predicate IsWhiteSpace(c: char) {
    var n := c as int;
    (0x09 <= n <= 0x0D) || n == 0x20 || n == 0x85 || n == 0xA0 || n == 0x1680
    || (0x2000 <= n <= 0x200A) || n == 0x2028 || n == 0x2029 || n == 0x202F
    || n == 0x205F || n == 0x3000
  }

  /** Null, empty, or made only of white space. */
  predicate IsNullOrWhiteSpace(s: Option<string>) {
    match s
    case None => true
    case Some(t) => forall i :: 0 <= i < |t| ==> IsWhiteSpace(t[i])
  }

  /** Null and blank strings take the skip branch; a phone number does not. */
  lemma BlankExamples()
    ensures IsNullOrWhiteSpace(None) && IsNullOrWhiteSpace(Some(""))
    ensures IsNullOrWhiteSpace(Some(" \t\r\n"))
    ensures !IsNullOrWhiteSpace(Some("+1555"))
  {
    assert !IsWhiteSpace("+1555"[0]);
  }

  // ---------------------------------------------------------------------
  // Configuration

  /** The notifier's fields after construction. The destination keeps its
      null; the token and the sender id are normalised to "". */
  datatype Notifier = Notifier(toPhoneNumber: Option<string>, accessToken: string, phoneNumberId: string)

  function NewNotifier(cfg: Configuration): (n: Notifier)
    ensures n.toPhoneNumber == cfg.toPhoneNumber
    ensures n.accessToken == (if cfg.accessToken.Some? then cfg.accessToken.value else "")
    ensures n.phoneNumberId == (if cfg.phoneNumberId.Some? then cfg.phoneNumberId.value else "")
  {
    Notifier(cfg.toPhoneNumber, cfg.accessToken.GetOr(""), cfg.phoneNumberId.GetOr(""))
  }

  /** The destination guard of SendAsync passes. */
  predicate HasDestination(n: Notifier) {
    !IsNullOrWhiteSpace(n.toPhoneNumber)
  }

  /** The credentials guard of SendUsingHttpClientAsync passes. */
  predicate HasCredentials(n: Notifier) {
    !IsNullOrWhiteSpace(Some(n.accessToken)) && !IsNullOrWhiteSpace(Some(n.phoneNumberId))
  }

  // ---------------------------------------------------------------------
  // The request

  const GraphApiBase := "https://graph.facebook.com/v24.0/"
  const MessagesPath := "/messages"
  const JsonMediaType := "application/json"
  const Utf8 := "utf-8"

  /** The messages endpoint of one sender. */
  function MessagesUrl(phoneNumberId: string): string {
    GraphApiBase + phoneNumberId + MessagesPath
  }

  /** The sender id a messages URL addresses; the inverse of MessagesUrl. */
  function SenderIdOfUrl(url: string): Option<string> {
    if |url| >= |GraphApiBase| + |MessagesPath|
       && url[..|GraphApiBase|] == GraphApiBase
       && url[|url| - |MessagesPath|..] == MessagesPath
    then Some(url[|GraphApiBase|..|url| - |MessagesPath|])
    else None
  }

  datatype HttpMethod = Get | Post
  datatype MediaType = MediaType(mediaType: string, charset: Option<string>)
  datatype AuthHeader = AuthHeader(scheme: string, parameter: string)
  datatype Language = Language(code: string)
  datatype Template = Template(name: string, language: Language)
  datatype Payload = Payload(
    messagingProduct: string,
    recipientType: string,
    to: string,
    messageType: string,
    template: Template)
  /** A request body: the payload, the encoding of its bytes, and the
      Content-Type header of the content. */
  datatype Content = Content(payload: Payload, encoding: string, contentType: MediaType)
  /** What is handed to the transport. */
  datatype Request = Request(
    verb: HttpMethod,
    url: string,
    content: Option<Content>,
    authorization: Option<AuthHeader>)

  /** The anonymous payload object: always the `hello_world` template. */
  function MessagePayload(to: string): Payload {
    Payload("whatsapp", "individual", to, "template", Template("hello_world", Language("en_US")))
  }

  /** `new StringContent(json, Encoding.UTF8, mediaType)`: its Content-Type
      header carries the encoding as a charset parameter. */
  function StringContent(payload: Payload, encoding: string, mediaType: string): Content {
    Content(payload, encoding, MediaType(mediaType, Some(encoding)))
  }

  /** The request SendUsingHttpClientAsync hands to the transport. */
  function DirectRequest(n: Notifier): Request
    requires n.toPhoneNumber.Some?
  {
    Request(
      Post,
      MessagesUrl(n.phoneNumberId),
      Some(Content(MessagePayload(n.toPhoneNumber.value), Utf8, MediaType(JsonMediaType, None))),
      Some(AuthHeader("Bearer", n.accessToken)))
  }

  /** A header value System.Net.Http accepts: it holds no carriage return
      and no line feed. */
  predicate HeaderSafe(value: string) {
    forall i :: 0 <= i < |value| ==> value[i] != '\r' && value[i] != '\n'
  }

  /** HttpRequestMessage: built with a method and a URL, then given its
      content and headers by assignment. */
  class HttpRequestMessage {
    const verb: HttpMethod
    const requestUri: string
    var content: Option<Content>
    var authorization: Option<AuthHeader>

    constructor (verb: HttpMethod, requestUri: string)
      ensures this.verb == verb && this.requestUri == requestUri
      ensures content == None && authorization == None
    {
      this.verb := verb;
      this.requestUri := requestUri;
      content := None;
      authorization := None;
    }

    /** The message as the transport sees it. */
    function Snapshot(): Request
      reads this
    {
      Request(verb, requestUri, content, authorization)
    }
  }

  /** Builds the POST: content first (with `charset=utf-8`), then the bearer
      header, then a Content-Type header that replaces the first one and
      carries no charset. A token holding CR or LF is refused as a header
      value, which raises; `null` stands for that exception. */
  method NewMessagesRequest(n: Notifier) returns (req: HttpRequestMessage?)
    requires n.toPhoneNumber.Some?
    ensures req == null <==> !HeaderSafe(n.accessToken)
    ensures req != null ==> fresh(req) && req.Snapshot() == DirectRequest(n)
  {
    var url := MessagesUrl(n.phoneNumberId);
    var payload := MessagePayload(n.toPhoneNumber.value);
    req := new HttpRequestMessage(Post, url);
    req.content := Some(StringContent(payload, Utf8, JsonMediaType));
    if !HeaderSafe(n.accessToken) {
      return null;
    }
    req.authorization := Some(AuthHeader("Bearer", n.accessToken));
    req.content := Some(req.content.value.(contentType := MediaType(JsonMediaType, None)));
  }

  // ---------------------------------------------------------------------
  // Sending

  /** What the transport does with a request: a response, or an exception
      (network failure, cancellation) that propagates to the caller. */
  datatype HttpResult = Response(statusCode: int, body: string) | TransportFault

  /** HttpResponseMessage.IsSuccessStatusCode. */
  predicate IsSuccessStatusCode(code: int) {
    200 <= code <= 299
  }

  /** The outcome of one SendAsync call. */
  datatype SendOutcome =
    | SkippedNoDestination
    | SkippedNoCredentials
    | HeaderRejected  // the token was refused as a header value; nothing was sent
    | Sent(request: Request, result: HttpResult)

  datatype Level = Information | Warning | Error

  /** The log record the notifier writes, none when an exception escapes. */
  function LogLevel(o: SendOutcome): Option<Level> {
    match o
    case SkippedNoDestination => Some(Warning)
    case SkippedNoCredentials => Some(Warning)
    case HeaderRejected => None
    case Sent(_, TransportFault) => None
    case Sent(_, Response(code, _)) => Some(if IsSuccessStatusCode(code) then Information else Error)
  }

  /** The call raises to its caller. */
  predicate Raises(o: SendOutcome) {
    o.HeaderRejected? || (o.Sent? && o.result.TransportFault?)
  }

  /** The requests handed to the transport during the call. */
  function RequestsIssued(o: SendOutcome): seq<Request> {
    if o.Sent? then [o.request] else []
  }

  /** Reference definition of SendUsingHttpClientAsync. */
  function DirectSendOutcome(n: Notifier, http: Request -> HttpResult): SendOutcome
    requires n.toPhoneNumber.Some?
  {
    if !HasCredentials(n) then SkippedNoCredentials
    else if !HeaderSafe(n.accessToken) then HeaderRejected
    else Sent(DirectRequest(n), http(DirectRequest(n)))
  }

  /** Reference definition of SendAsync: the destination guard, then the
      direct send. The contract flattens the two guards. */
  function SendOutcomeOf(n: Notifier, http: Request -> HttpResult): (o: SendOutcome)
    ensures o.SkippedNoDestination? <==> !HasDestination(n)
    ensures o.SkippedNoCredentials? <==> HasDestination(n) && !HasCredentials(n)
    ensures o.HeaderRejected? <==> HasDestination(n) && HasCredentials(n) && !HeaderSafe(n.accessToken)
    ensures o.Sent? <==> HasDestination(n) && HasCredentials(n) && HeaderSafe(n.accessToken)
    ensures o.Sent? ==> n.toPhoneNumber.Some? && o.request == DirectRequest(n) && o.result == http(o.request)
  {
    if !HasDestination(n) then SkippedNoDestination
    else DirectSendOutcome(n, http)
  }

  method SendUsingHttpClientAsync(n: Notifier, http: Request -> HttpResult) returns (o: SendOutcome)
    requires n.toPhoneNumber.Some?
    ensures o == DirectSendOutcome(n, http)
  {
    if IsNullOrWhiteSpace(Some(n.accessToken)) || IsNullOrWhiteSpace(Some(n.phoneNumberId)) {
      return SkippedNoCredentials;
    }
    var req := NewMessagesRequest(n);
    if req == null {
      return HeaderRejected;
    }
    var resp := http(req.Snapshot());
    o := Sent(req.Snapshot(), resp);
  }

  method SendAsync(n: Notifier, http: Request -> HttpResult) returns (o: SendOutcome)
    ensures o == SendOutcomeOf(n, http)
  {
    if IsNullOrWhiteSpace(n.toPhoneNumber) {
      return SkippedNoDestination;
    }
    o := SendUsingHttpClientAsync(n, http);
  }

  // ---------------------------------------------------------------------
  // Properties

  /** MessagesUrl and SenderIdOfUrl are inverse: every messages URL names
      its sender id, and a URL that names one is that sender's URL. */
  lemma UrlRoundTrip(id: string, url: string)
    ensures SenderIdOfUrl(MessagesUrl(id)) == Some(id)
    ensures SenderIdOfUrl(url) == Some(id) ==> MessagesUrl(id) == url
  {
  }

  /** Two senders never share an endpoint. */
  lemma UrlInjective(a: string, b: string)
    requires MessagesUrl(a) == MessagesUrl(b)
    ensures a == b
  {
    UrlRoundTrip(a, MessagesUrl(a));
    UrlRoundTrip(b, MessagesUrl(b));
  }

  /** The fixed shape of every direct request. */
  lemma DirectRequestShape(n: Notifier)
    requires n.toPhoneNumber.Some?
    ensures var r := DirectRequest(n);
      && r.verb == Post
      && SenderIdOfUrl(r.url) == Some(n.phoneNumberId)
      && r.content.Some?
      && r.content.value.payload.to == n.toPhoneNumber.value
      && r.content.value.payload.messagingProduct == "whatsapp"
      && r.content.value.payload.recipientType == "individual"
      && r.content.value.payload.messageType == "template"
      && r.content.value.payload.template == Template("hello_world", Language("en_US"))
      && r.content.value.encoding == Utf8
      && r.content.value.contentType == MediaType("application/json", None)
      && r.authorization == Some(AuthHeader("Bearer", n.accessToken))
  {
  }

  /** A missing token or sender id is normalised to "" and, with a
      destination set, ends in the credentials skip with no request. */
  lemma MissingCredentialsSkip(cfg: Configuration, http: Request -> HttpResult)
    requires !IsNullOrWhiteSpace(cfg.toPhoneNumber)
    requires cfg.accessToken.None? || cfg.phoneNumberId.None?
    ensures SendOutcomeOf(NewNotifier(cfg), http) == SkippedNoCredentials
    ensures RequestsIssued(SendOutcomeOf(NewNotifier(cfg), http)) == []
  {
  }

  /** A blank destination makes no request, whatever the credentials. */
  lemma BlankDestinationSkips(n: Notifier, http: Request -> HttpResult)
    requires IsNullOrWhiteSpace(n.toPhoneNumber)
    ensures SendOutcomeOf(n, http) == SkippedNoDestination
    ensures RequestsIssued(SendOutcomeOf(n, http)) == []
    ensures LogLevel(SendOutcomeOf(n, http)) == Some(Warning) && !Raises(SendOutcomeOf(n, http))
  {
  }

  /** A request is made exactly when both guards pass and the token is a
      valid header value, and then exactly one: the direct request. */
  lemma ExactlyOneRequestWhenConfigured(n: Notifier, http: Request -> HttpResult)
    ensures var o := SendOutcomeOf(n, http);
      |RequestsIssued(o)| == (if HasDestination(n) && HasCredentials(n) && HeaderSafe(n.accessToken) then 1 else 0)
    ensures HasDestination(n) && HasCredentials(n) && HeaderSafe(n.accessToken) ==>
      RequestsIssued(SendOutcomeOf(n, http)) == [DirectRequest(n)]
  {
  }

  /** A response with a non-success status is logged as an error and is not
      raised; only a refused token or a transport exception reaches the
      caller. */
  lemma FailedStatusIsOnlyLogged(n: Notifier, http: Request -> HttpResult)
    ensures var o := SendOutcomeOf(n, http);
      o.Sent? && o.result.Response? && !IsSuccessStatusCode(o.result.statusCode) ==>
        LogLevel(o) == Some(Error) && !Raises(o)
    ensures Raises(SendOutcomeOf(n, http)) <==>
      HasDestination(n) && HasCredentials(n)
      && (!HeaderSafe(n.accessToken) || http(DirectRequest(n)).TransportFault?)
  {
  }

  /** A token that passes the blank guard but holds a line break raises
      before any request is made, whatever the transport would answer. */
  lemma LineBreakTokenRaises(n: Notifier, http: Request -> HttpResult)
    requires HasDestination(n) && HasCredentials(n)
    requires exists i :: 0 <= i < |n.accessToken| && n.accessToken[i] == '\n'
    ensures var o := SendOutcomeOf(n, http);
      o == HeaderRejected && Raises(o) && RequestsIssued(o) == [] && LogLevel(o) == None
  {
  }

  /** The token "abc\n" is not blank, yet it is refused as a header value. */
  lemma LineBreakTokenExample()
    ensures HasCredentials(Notifier(Some("+1555"), "abc\n", "1"))
    ensures !HeaderSafe("abc\n")
  {
    assert !IsWhiteSpace("abc\n"[0]);
    assert !IsWhiteSpace("1"[0]);
    assert "abc\n"[3] == '\n';
  }
}
