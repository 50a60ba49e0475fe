/**
 * The two-step workflow of App.run: register the identity, then submit the
 * selected query with the returned access token. The network, the JSON
 * library and the request builder's header check are abstracted: their
 * answers are inputs. What run does with them is recorded as the requests
 * it sends, the lines it prints and how the run ends.
 */
module Workflow {
  import opened Optional
  import RegNumber
  import Escape

  // ---------------------------------------------------------------- identity

  datatype Identity = Identity(name: string, regNo: string, email: string)

  const DEFAULT_NAME := "Your Name"
  const DEFAULT_REG_NO := "YOURREGNO1234"
  const DEFAULT_EMAIL := "you@example.com"

  /** env.getProperty(key, default) for app.name, app.regNo and app.email: None is an unset property. */
  function ResolveIdentity(name: Option<string>, regNo: Option<string>, email: Option<string>): (id: Identity)
    ensures name.None? ==> id.name == DEFAULT_NAME
    ensures regNo.None? ==> id.regNo == DEFAULT_REG_NO
    ensures email.None? ==> id.email == DEFAULT_EMAIL
    ensures name.Some? ==> id.name == name.value
    ensures regNo.Some? ==> id.regNo == regNo.value
    ensures email.Some? ==> id.email == email.value
  {
    Identity(
      if name.Some? then name.value else DEFAULT_NAME,
      if regNo.Some? then regNo.value else DEFAULT_REG_NO,
      if email.Some? then email.value else DEFAULT_EMAIL)
  }

  // ---------------------------------------------------------------- status codes

  /** Java's int division by 100, which truncates toward zero (Dafny's / is Euclidean). */
  function JavaDivBy100(a: int): (q: int)
    ensures a >= 0 ==> 0 <= q && 100 * q <= a < 100 * q + 100
    ensures a < 0 ==> q <= 0 && 100 * q - 100 < a <= 100 * q
  {
    if a >= 0 then a / 100 else -((-a) / 100)
  }

  /**
   * The test statusCode() / 100 == 2 that run applies to each reply
   * (App.java:53, 106). It accepts exactly the codes 200 to 299, negative
   * codes included.
   */
  predicate Is2xx(status: int): (ok: bool)
    ensures ok <==> 200 <= status <= 299
  {
    JavaDivBy100(status) == 2
  }

  // ---------------------------------------------------------------- requests

  /** The two fixed endpoints run posts to. */
  datatype Endpoint = GenerateWebhook | TestWebhook {
    function Url(): string {
      match this
      case GenerateWebhook => "https://bfhldevapigw.healthrx.co.in/hiring/generateWebhook/JAVA"
      case TestWebhook => "https://bfhldevapigw.healthrx.co.in/hiring/testWebhook/JAVA"
    }
  }

  /**
   * A POST request as run builds it: endpoint, request timeout, the two
   * headers run can set (Content-Type always, Authorization when present), body.
   */
  datatype Request = Request(endpoint: Endpoint, timeoutSeconds: nat, contentType: string,
                             authorization: Option<string>, body: string)

  // the timeout each request is built with
  const REQUEST_TIMEOUT_SECONDS := 20
  const JSON_MEDIA_TYPE := "application/json"

  const NAME_KEY := "{\"name\":\""
  const REG_NO_KEY := "\",\"regNo\":\""
  const EMAIL_KEY := "\",\"email\":\""
  const BODY_END := "\"}"

  /** The registration body {"name":"…","regNo":"…","email":"…"}, each field passed through esc. */
  function RegistrationBody(id: Identity): string {
    NAME_KEY + Escape.Esc(id.name) + REG_NO_KEY + Escape.Esc(id.regNo) + EMAIL_KEY + Escape.Esc(id.email) + BODY_END
  }

  /** t without its prefix p, when t starts with p. */
  function AfterPrefix(p: string, t: string): (r: Option<string>)
    ensures r.Some? ==> t == p + r.value
  {
    if |p| <= |t| && t[..|p|] == p then Some(t[|p|..]) else None
  }

  /** Reads a string field up to its closing quote, then the rest of key, which starts with that quote. */
  function ReadField(t: string, key: string): Option<(string, string)>
    requires key != [] && key[0] == '"'
  {
    match Escape.ReadString(t)
    case None => None
    case Some((v, rest)) =>
      match AfterPrefix(key[1..], rest)
      case None => None
      case Some(rest') => Some((v, rest'))
  }

  /** Reads back a registration body of exactly the shape RegistrationBody writes. */
  function ReadRegistrationBody(t: string): Option<Identity> {
    match AfterPrefix(NAME_KEY, t)
    case None => None
    case Some(t1) =>
      match ReadField(t1, REG_NO_KEY)
      case None => None
      case Some((name, t2)) =>
        match ReadField(t2, EMAIL_KEY)
        case None => None
        case Some((regNo, t3)) =>
          match ReadField(t3, BODY_END)
          case None => None
          case Some((email, t4)) =>
            if t4 == [] then Some(Identity(name, regNo, email)) else None
  }

  lemma AfterPrefixOf(p: string, x: string)
    ensures AfterPrefix(p, p + x) == Some(x)
  {
    assert (p + x)[..|p|] == p;
    assert (p + x)[|p|..] == x;
  }

  lemma ReadFieldOf(s: string, key: string, x: string)
    requires key != [] && key[0] == '"'
    ensures ReadField(Escape.Esc(s) + key + x, key) == Some((s, x))
  {
    assert key == "\"" + key[1..];
    assert Escape.Esc(s) + key + x == Escape.Esc(s) + "\"" + (key[1..] + x);
    Escape.EscRoundTrip(s, key[1..] + x);
    AfterPrefixOf(key[1..], x);
  }

  /**
   * Because esc escapes every quote and backslash, the three fields can be
   * read back from the body: no identity is mistaken for another.
   */
  lemma RegistrationBodyRoundTrip(id: Identity)
    ensures ReadRegistrationBody(RegistrationBody(id)) == Some(id)
  {
    var e1, e2, e3 := Escape.Esc(id.name), Escape.Esc(id.regNo), Escape.Esc(id.email);
    var k1, k2, k3, k4 := NAME_KEY, REG_NO_KEY, EMAIL_KEY, BODY_END;
    var t3 := e3 + k4 + [];
    var t2 := e2 + k3 + t3;
    var t1 := e1 + k2 + t2;
    Associate(k1, e1, k2, e2, k3, e3, k4);
    assert RegistrationBody(id) == k1 + t1;
    AfterPrefixOf(k1, t1);
    ReadFieldOf(id.name, k2, t2);
    ReadFieldOf(id.regNo, k3, t3);
    ReadFieldOf(id.email, k4, []);
  }

  lemma Associate(k1: string, e1: string, k2: string, e2: string, k3: string, e3: string, k4: string)
    ensures k1 + e1 + k2 + e2 + k3 + e3 + k4 == k1 + (e1 + k2 + (e2 + k3 + (e3 + k4 + [])))
  {
  }

  /** The first request: POST to the fixed generateWebhook URL with a JSON body carrying the identity. */
  function RegistrationRequest(id: Identity): (r: Request)
    ensures r.endpoint == GenerateWebhook && r.timeoutSeconds == REQUEST_TIMEOUT_SECONDS
    ensures r.contentType == JSON_MEDIA_TYPE && r.authorization == None
  {
    Request(GenerateWebhook, REQUEST_TIMEOUT_SECONDS, JSON_MEDIA_TYPE, None, RegistrationBody(id))
  }

  /** The registration request carries the whole identity, recoverable from its body. */
  lemma RegistrationRequestCarriesIdentity(id: Identity)
    ensures ReadRegistrationBody(RegistrationRequest(id).body) == Some(id)
  {
    RegistrationBodyRoundTrip(id);
  }

  /** The two requests go to the two fixed URLs of the challenge service. */
  lemma RequestUrls(id: Identity, accessToken: string, body: string)
    ensures RegistrationRequest(id).endpoint.Url() == "https://bfhldevapigw.healthrx.co.in/hiring/generateWebhook/JAVA"
    ensures SubmissionRequest(accessToken, body).endpoint.Url() == "https://bfhldevapigw.healthrx.co.in/hiring/testWebhook/JAVA"
    ensures RegistrationRequest(id).endpoint.Url() != SubmissionRequest(accessToken, body).endpoint.Url()
  {
    assert |GenerateWebhook.Url()| != |TestWebhook.Url()|;
  }

  /** What run needs from libraries it does not see. */
  datatype Library = Library(
    // ObjectMapper.writeValueAsString on a String: its JSON string literal.
    writeJsonString: string -> string,
    // Whether HttpRequest.Builder.header accepts a header value; it throws otherwise.
    acceptsHeaderValue: string -> bool)

  /** The submission body {"finalQuery":<query as a JSON string>}. */
  function SubmissionBody(query: string, lib: Library): string {
    "{\"finalQuery\":" + lib.writeJsonString(query) + "}"
  }

  /**
   * The second request: always the fixed testWebhook URL, whatever webhook the
   * registration returned, with the raw token (no "Bearer " prefix) as the
   * Authorization value.
   */
  function SubmissionRequest(accessToken: string, body: string): (r: Request)
    ensures r.endpoint == TestWebhook && r.timeoutSeconds == REQUEST_TIMEOUT_SECONDS
    ensures r.contentType == JSON_MEDIA_TYPE && r.authorization == Some(accessToken)
    ensures r.body == body
  {
    Request(TestWebhook, REQUEST_TIMEOUT_SECONDS, JSON_MEDIA_TYPE, Some(accessToken), body)
  }

  // ---------------------------------------------------------------- queries

  const PLACEHOLDER_QUERY := "/* TODO: Write SQL for Q1 (odd last-two digits) */\nSELECT 1;"
  const JOIN_QUERY :=
    "SELECT\n" +
    "  e.EMP_ID,\n" +
    "  e.FIRST_NAME,\n" +
    "  e.LAST_NAME,\n" +
    "  d.DEPARTMENT_NAME,\n" +
    "  (\n" +
    "    SELECT COUNT(1)\n" +
    "    FROM EMPLOYEE e2\n" +
    "    WHERE e2.DEPARTMENT = e.DEPARTMENT\n" +
    "      AND e2.DOB > e.DOB\n" +
    "  ) AS YOUNGER_EMPLOYEES_COUNT\n" +
    "FROM EMPLOYEE e\n" +
    "JOIN DEPARTMENT d ON d.DEPARTMENT_ID = e.DEPARTMENT\n" +
    "ORDER BY e.EMP_ID DESC"

  /** The query run submits for a registration number (the finalQuery choice of run). */
  function ChosenQuery(regNo: string): string {
    if RegNumber.LastTwoDigitsOdd(regNo) then PLACEHOLDER_QUERY else JOIN_QUERY
  }

  /**
   * The placeholder is chosen exactly when the registration number has at
   * least two digits and its final digit is odd; otherwise the join query.
   */
  lemma ChosenQueryByFinalDigit(regNo: string)
    ensures ChosenQuery(regNo) == PLACEHOLDER_QUERY <==>
      RegNumber.DigitCount(regNo) >= 2 && RegNumber.FinalDigit(regNo).Some? &&
      RegNumber.DigitValue(RegNumber.FinalDigit(regNo).value) % 2 == 1
    ensures ChosenQuery(regNo) == PLACEHOLDER_QUERY || ChosenQuery(regNo) == JOIN_QUERY
  {
    assert |PLACEHOLDER_QUERY| != |JOIN_QUERY|;
    if RegNumber.DigitCount(regNo) >= 2 {
      RegNumber.OddIffFinalDigitOdd(regNo);
    } else {
      RegNumber.FewerThanTwoDigitsIsEven(regNo);
    }
  }

  /** The default registration number selects the join query. */
  lemma DefaultRegNoSelectsJoinQuery()
    ensures ChosenQuery(ResolveIdentity(None, None, None).regNo) == JOIN_QUERY
  {
    var regNo := ResolveIdentity(None, None, None).regNo;
    assert regNo == "YOURREGNO" + "1234";
    RegNumber.ExampleDefault();
    assert !RegNumber.LastTwoDigitsOdd(regNo);
  }

  // ---------------------------------------------------------------- whitespace

  /** Character.isWhitespace: the Unicode space, line and paragraph separators other than the no-break spaces, and the ASCII controls 9-13 and 28-31. */
  predicate IsJavaWhitespace(c: char) {
    ('\t' <= c <= '\r') || ('\U{1C}' <= c <= ' ') || c == '\U{1680}'
    || ('\U{2000}' <= c <= '\U{2006}') || ('\U{2008}' <= c <= '\U{200A}')
    || c == '\U{2028}' || c == '\U{2029}' || c == '\U{205F}' || c == '\U{3000}'
  }

  /** String.isBlank: empty, or whitespace only. */
  predicate IsBlank(s: string) {
    forall i :: 0 <= i < |s| ==> IsJavaWhitespace(s[i])
  }

  // ---------------------------------------------------------------- replies and trace

  /** accessToken and webhook as path(...).asText() gives them; a missing field reads as "". */
  datatype RegistrationFields = RegistrationFields(accessToken: string, webhook: string)

  datatype RegistrationReply =
    | NoRegistrationResponse  // client.send threw
    | RegistrationResponse(status: int, body: string,
                           json: Option<RegistrationFields>)  // None: readTree throws on this body

  datatype SubmissionReply =
    | NoSubmissionResponse  // client.send threw
    | SubmissionResponse(status: int, body: string)

  /** What run prints, line by line. */
  datatype Note =
    | Starting(id: Identity)
    | RegistrationStatus(status: int)
    | RegistrationResponseBody(text: string)
    | RegistrationFailed
    | AccessTokenIs(token: string)
    | WebhookIs(webhook: string)
    | NoAccessToken
    | SubmitStatus(status: int)
    | SubmitResponseBody(text: string)
    | ServerAccepted
    | ServerDidNotAccept

  datatype HaltReason = RegistrationNot2xx | BlankAccessToken

  /** The exceptions that leave run: it declares throws Exception and catches nothing. */
  datatype Failure =
    | RegistrationSendFailed
    | MalformedRegistrationJson
    | InvalidAuthorizationHeader
    | SubmissionSendFailed

  datatype Outcome =
    | Halted(reason: HaltReason)   // an early return before any submission
    | Finished(accepted: bool)     // the submission was answered; accepted iff 2xx
    | Thrown(failure: Failure)

  /** The registration succeeded with a readable body. */
  predicate Registered(registration: RegistrationReply) {
    registration.RegistrationResponse? && Is2xx(registration.status) && registration.json.Some?
  }

  /** The registration hands over a token that run submits with. */
  predicate Submits(registration: RegistrationReply, lib: Library) {
    Registered(registration)
    && !IsBlank(registration.json.value.accessToken)
    && lib.acceptsHeaderValue(registration.json.value.accessToken)
  }

  // ---------------------------------------------------------------- run

  /** Where the registration step leaves run: with a token to submit with, or finished. */
  datatype Step = Continue(accessToken: string) | Stop(outcome: Outcome)

  /**
   * The first step of run, once the registration request is sent: print the
   * reply, check its status, read the token and stop on a blank one.
   * Returns what it printed.
   */
  method Register(registration: RegistrationReply) returns (printed: seq<Note>, next: Step)
    ensures registration.NoRegistrationResponse? ==> next == Stop(Thrown(RegistrationSendFailed))
    ensures registration.RegistrationResponse? && !Is2xx(registration.status) ==>
      next == Stop(Halted(RegistrationNot2xx)) && |printed| > 0 && printed[|printed| - 1] == RegistrationFailed
    ensures registration.RegistrationResponse? && Is2xx(registration.status) && registration.json.None? ==>
      next == Stop(Thrown(MalformedRegistrationJson))
    ensures Registered(registration) && IsBlank(registration.json.value.accessToken) ==>
      next == Stop(Halted(BlankAccessToken)) && |printed| > 0 && printed[|printed| - 1] == NoAccessToken
    ensures Registered(registration) && !IsBlank(registration.json.value.accessToken) ==>
      next == Continue(registration.json.value.accessToken)
    ensures ServerAccepted !in printed && ServerDidNotAccept !in printed
  {
    printed := [];
    match registration
    case NoRegistrationResponse =>
      next := Stop(Thrown(RegistrationSendFailed));
      return;
    case RegistrationResponse(status, body, json) =>
      printed := printed + [RegistrationStatus(status), RegistrationResponseBody(body)];
      if !Is2xx(status) {
        printed := printed + [RegistrationFailed];
        next := Stop(Halted(RegistrationNot2xx));
        return;
      }
      if json.None? {
        next := Stop(Thrown(MalformedRegistrationJson));
        return;
      }
      var accessToken := json.value.accessToken;
      var webhook := json.value.webhook;
      printed := printed + [AccessTokenIs(accessToken), WebhookIs(webhook)];
      if IsBlank(accessToken) {
        printed := printed + [NoAccessToken];
        next := Stop(Halted(BlankAccessToken));
        return;
      }
      next := Continue(accessToken);
  }

  /**
   * The second step of run, once a non-blank token is in hand: choose the
   * query, send it with the raw token, print the verdict. Returns what it
   * sent and printed.
   */
  method Submit(regNo: string, accessToken: string, submission: SubmissionReply, lib: Library)
    returns (sent: seq<Request>, printed: seq<Note>, outcome: Outcome)
    ensures outcome.Finished? || outcome.Thrown?
    // the builder rejects the header value before anything is sent
    ensures !lib.acceptsHeaderValue(accessToken) ==>
      outcome == Thrown(InvalidAuthorizationHeader) && sent == [] && printed == []
    ensures lib.acceptsHeaderValue(accessToken) ==>
      sent == [SubmissionRequest(accessToken, SubmissionBody(ChosenQuery(regNo), lib))]
    ensures lib.acceptsHeaderValue(accessToken) && submission.NoSubmissionResponse? ==>
      outcome == Thrown(SubmissionSendFailed) && printed == []
    ensures lib.acceptsHeaderValue(accessToken) && submission.SubmissionResponse? ==>
      outcome == Finished(Is2xx(submission.status))
    // the verdict is the last line, printed once, and only for an answered submission
    ensures outcome.Finished? ==>
      |printed| > 0 && printed[|printed| - 1] == (if outcome.accepted then ServerAccepted else ServerDidNotAccept)
    ensures ServerAccepted in printed <==> outcome == Finished(true)
    ensures ServerDidNotAccept in printed <==> outcome == Finished(false)
  {
    sent, printed := [], [];
    var isOdd := RegNumber.LastTwoDigitsOdd(regNo);
    var finalQuery;
    if isOdd {
      finalQuery := PLACEHOLDER_QUERY;
    } else {
      finalQuery := JOIN_QUERY;
    }
    var submitBody := SubmissionBody(finalQuery, lib);
    if !lib.acceptsHeaderValue(accessToken) {
      outcome := Thrown(InvalidAuthorizationHeader);
      return;
    }
    sent := sent + [SubmissionRequest(accessToken, submitBody)];
    match submission
    case NoSubmissionResponse =>
      outcome := Thrown(SubmissionSendFailed);
    case SubmissionResponse(subStatus, subBody) =>
      printed := printed + [SubmitStatus(subStatus), SubmitResponseBody(subBody)];
      if Is2xx(subStatus) {
        printed := printed + [ServerAccepted];
        outcome := Finished(true);
      } else {
        printed := printed + [ServerDidNotAccept];
        outcome := Finished(false);
      }
  }

  /**
   * App.run, once the identity is resolved: what it sends over the network,
   * what it prints on the console, and how it ends.
   */
  method Run(id: Identity, registration: RegistrationReply, submission: SubmissionReply, lib: Library)
    returns (sent: seq<Request>, printed: seq<Note>, outcome: Outcome)
    // the identity is announced, then the registration request is always sent first
    ensures |printed| > 0 && printed[0] == Starting(id)
    ensures 1 <= |sent| <= 2 && sent[0] == RegistrationRequest(id)
    // how the registration step ends the run
    ensures registration.NoRegistrationResponse? ==> outcome == Thrown(RegistrationSendFailed)
    ensures registration.RegistrationResponse? && !Is2xx(registration.status) ==>
      outcome == Halted(RegistrationNot2xx) && printed[|printed| - 1] == RegistrationFailed
    ensures registration.RegistrationResponse? && Is2xx(registration.status) && registration.json.None? ==>
      outcome == Thrown(MalformedRegistrationJson)
    ensures Registered(registration) && IsBlank(registration.json.value.accessToken) ==>
      outcome == Halted(BlankAccessToken) && printed[|printed| - 1] == NoAccessToken
    ensures (Registered(registration) && !IsBlank(registration.json.value.accessToken)
             && !lib.acceptsHeaderValue(registration.json.value.accessToken)) ==>
      outcome == Thrown(InvalidAuthorizationHeader)
    // exactly one submission when a usable token was handed over, none otherwise
    ensures |sent| == 2 <==> Submits(registration, lib)
    ensures Submits(registration, lib) ==>
      sent[1] == SubmissionRequest(registration.json.value.accessToken,
                                   SubmissionBody(ChosenQuery(id.regNo), lib))
    // how the submission step ends the run
    ensures Submits(registration, lib) && submission.NoSubmissionResponse? ==>
      outcome == Thrown(SubmissionSendFailed)
    ensures Submits(registration, lib) && submission.SubmissionResponse? ==>
      outcome == Finished(Is2xx(submission.status))
    // the verdict is the last line, and only an answered submission prints one
    ensures outcome.Finished? ==>
      printed[|printed| - 1] == (if outcome.accepted then ServerAccepted else ServerDidNotAccept)
    ensures ServerAccepted in printed <==> outcome == Finished(true)
    ensures ServerDidNotAccept in printed <==> outcome == Finished(false)
  {
    printed := [Starting(id)];
    sent := [RegistrationRequest(id)];
    var registered, next := Register(registration);
    printed := printed + registered;
    match next
    case Stop(o) =>
      outcome := o;
    case Continue(accessToken) =>
      var sentMore, printedMore;
      sentMore, printedMore, outcome := Submit(id.regNo, accessToken, submission, lib);
      sent := sent + sentMore;
      printed := printed + printedMore;
  }

  /**
   * The webhook the registration reply carries changes nothing that is sent
   * and not how the run ends.
   */
  method RunIgnoresWebhook(id: Identity, registration: RegistrationReply, otherWebhook: string,
                           submission: SubmissionReply, lib: Library)
    returns (sent: seq<Request>, sent': seq<Request>, outcome: Outcome, outcome': Outcome)
    ensures sent == sent' && outcome == outcome'
  {
    var other := registration;
    if registration.RegistrationResponse? && registration.json.Some? {
      other := registration.(json := Some(registration.json.value.(webhook := otherWebhook)));
    }
    var printed, printed';
    sent, printed, outcome := Run(id, registration, submission, lib);
    sent', printed', outcome' := Run(id, other, submission, lib);
  }

  /** Two runs on the same identity and the same replies send the same requests and end alike: no state is carried over. */
  method RunIsRepeatable(id: Identity, registration: RegistrationReply, submission: SubmissionReply, lib: Library)
    returns (sent: seq<Request>, sent': seq<Request>, outcome: Outcome, outcome': Outcome)
    ensures sent == sent' && outcome == outcome'
  {
    var printed, printed';
    sent, printed, outcome := Run(id, registration, submission, lib);
    sent', printed', outcome' := Run(id, registration, submission, lib);
  }
}
