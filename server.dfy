/**
 * The verifier server of index.js: it issues Polygon ID authorization requests
 * for a session, keeps them in memory under the session id, verifies the
 * wallet's response against the stored request, and announces every step on
 * the socket topic named after the session.
 *
 * The iden3 library is not part of this model: building the base request
 * (`auth.createAuthorizationRequest`) and checking a response
 * (`Verifier.fullVerify`) are function-typed parameters, so every property
 * below holds whatever those calls return.
 */
module Server {
  import opened Wrappers
  import opened VcHelpers

  // ---------------------------------------------------------------------------
  // Data model
  // ---------------------------------------------------------------------------

  /** The body of an iden3 authorization request; `scope` may be missing. */
  datatype RequestBody = RequestBody(callbackUrl: string, reason: string, scope: Option<seq<ProofQuery>>)

  /** An iden3 authorization request: message id, thread id, sender DID and body. */
  datatype AuthRequest = AuthRequest(id: string, thid: string, from: string, body: RequestBody)

  /** The part of a verified authorization response that the server reads. */
  datatype AuthResponse = AuthResponse(id: string, thid: string, from: string)

  /** Whatever `fullVerify` throws: a bad proof, an untrusted issuer, stale state, a network failure. */
  datatype VerifyError = VerifyError(message: string)

  /** The options handed to `fullVerify`; the field keeps the source's key, `AcceptedStateTransitionDelay`. */
  datatype VerifyOptions = VerifyOptions(AcceptedStateTransitionDelay: int)

  /** The STATUS values of a socket message. */
  datatype Status = InProgress | Error | Done

  /** The `data` of a socket message, which the source leaves untyped. */
  datatype Payload =
    | Undefined
    | SessionId(sessionId: string)
    | Request(request: AuthRequest)
    | Response(response: AuthResponse)
    | Thrown(error: VerifyError)

  /** `socketMessage(fn, status, data)`. */
  datatype SocketMessage = SocketMessage(fn: string, status: Status, data: Payload)

  /** One `io.sockets.emit(topic, message)`. */
  datatype Emission = Emission(topic: string, message: SocketMessage)

  datatype ResponseBody = Text(text: string) | Json(request: AuthRequest) | ErrorValue(error: VerifyError)

  /** An HTTP reply: status code and body. */
  datatype HttpResponse = HttpResponse(status: int, body: ResponseBody)

  /** `auth.createAuthorizationRequest(reason, senderDid, callbackUri)`. */
  type RequestBuilder = (string, string, string) -> AuthRequest

  /** `verifier.fullVerify(token, request, options)`: returns the response or throws. */
  type FullVerify = (string, Option<AuthRequest>, VerifyOptions) -> Result<AuthResponse, VerifyError>

  // ---------------------------------------------------------------------------
  // Constants
  // ---------------------------------------------------------------------------

  const GetAuthQrPath := "/api/get-auth-qr"
  const HandleVerificationPath := "/api/verification-callback"

  /** `apiPath`, in its key order. */
  const ApiPaths: seq<(string, string)> := [("getAuthQr", GetAuthQrPath), ("handleVerification", HandleVerificationPath)]

  const GetAuthQrFn := "getAuthQr"
  const HandleVerificationFn := "handleVerification"
  const Reason := "Must be the owner of this identity!"

  /** Five minutes, in milliseconds. */
  const AcceptedStateTransitionDelay := 5 * 60 * 1000

  // ---------------------------------------------------------------------------
  // Socket messages and their per-topic view
  // ---------------------------------------------------------------------------

  /** The messages a subscriber of `topic` receives, in emission order. */
  function EventsOn(log: seq<Emission>, topic: string): (messages: seq<SocketMessage>)
    ensures |messages| <= |log|
    ensures forall m :: m in messages ==> Emission(topic, m) in log
  {
    if log == [] then []
    else
      var last := log[|log| - 1];
      EventsOn(log[..|log| - 1], topic) + (if last.topic == topic then [last.message] else [])
  }

  function Statuses(messages: seq<SocketMessage>): (r: seq<Status>)
    ensures |r| == |messages|
  {
    seq(|messages|, i requires 0 <= i < |messages| => messages[i].status)
  }

  lemma {:induction false} EventsOnAppend(a: seq<Emission>, b: seq<Emission>, topic: string)
    ensures EventsOn(a + b, topic) == EventsOn(a, topic) + EventsOn(b, topic)
  {
    if b != [] {
      var b', x := b[..|b| - 1], b[|b| - 1];
      assert (a + b)[..|a + b| - 1] == a + b';
      EventsOnAppend(a, b', topic);
    } else {
      assert a + b == a;
    }
  }

  /** Emissions on one topic are invisible to the subscribers of every other topic. */
  lemma {:induction false} OtherTopicsUntouched(log: seq<Emission>, events: seq<Emission>, s: string, t: string)
    requires forall e :: e in events ==> e.topic == s
    requires t != s
    ensures EventsOn(log + events, t) == EventsOn(log, t)
  {
    EventsOnAppend(log, events, t);
    NothingOn(events, t);
  }

  lemma {:induction false} NothingOn(events: seq<Emission>, t: string)
    requires forall e :: e in events ==> e.topic != t
    ensures EventsOn(events, t) == []
  {
    if events != [] {
      NothingOn(events[..|events| - 1], t);
    }
  }

  // ---------------------------------------------------------------------------
  // The session store
  // ---------------------------------------------------------------------------

  /** `authRequests.get(sessionId)`: the stored request, or `undefined`. */
  function Lookup(store: map<string, AuthRequest>, sessionId: string): (r: Option<AuthRequest>)
    ensures r.Some? <==> sessionId in store
    ensures r.Some? ==> r.value == store[sessionId]
  {
    if sessionId in store then Some(store[sessionId]) else None
  }

  /** A looked-up request as message data: the request itself, or `undefined`. */
  function StoredPayload(stored: Option<AuthRequest>): (p: Payload)
    ensures p == Undefined <==> stored.None?
    ensures stored.Some? ==> p == Request(stored.value)
  {
    match stored
    case Some(r) => Request(r)
    case None => Undefined
  }

  // ---------------------------------------------------------------------------
  // The callback URI
  // ---------------------------------------------------------------------------

  /** An unreserved character of section 2.3 of RFC 3986: it stands for itself in a query value. */
  predicate Unreserved(c: char)
  {
    ('a' <= c <= 'z') || ('A' <= c <= 'Z') || ('0' <= c <= '9') || c == '-' || c == '.' || c == '_' || c == '~'
  }

  /** The raw text of a query value: the longest prefix without a '&' or '#'. */
  function QueryValue(s: string): (v: string)
    ensures v <= s
    ensures forall i :: 0 <= i < |v| ==> v[i] != '&' && v[i] != '#'
    ensures |v| < |s| ==> s[|v|] == '&' || s[|v|] == '#'
  {
    if s == [] || s[0] == '&' || s[0] == '#' then [] else [s[0]] + QueryValue(s[1..])
  }

  function CallbackPrefix(host: string): string
  {
    host + HandleVerificationPath + "?sessionId="
  }

  /**
   * The `sessionId` query value that the verification-callback route reads
   * from a URI of the shape this server builds: the callback prefix followed
   * by a raw value. Every other URI gives `None`, including ones the route
   * would still accept (other parameters before `sessionId`, a repeated key,
   * a trailing slash or another letter case in the path).
   */
  function CallbackSessionId(host: string, uri: string): (r: Option<string>)
    ensures r.Some? <==> CallbackPrefix(host) <= uri
    ensures r.Some? ==> r.value <= uri[|CallbackPrefix(host)|..]
    ensures r.Some? ==> forall i :: 0 <= i < |r.value| ==> r.value[i] != '&' && r.value[i] != '#'
  {
    var prefix := CallbackPrefix(host);
    if prefix <= uri then Some(QueryValue(uri[|prefix|..])) else None
  }

  /**
   * The callback URI of a session: this server's verification-callback route
   * with the session id as its `sessionId` query value. The id is not
   * percent-encoded, so it reads back intact only when it is made of
   * unreserved characters.
   */
  function CallbackUri(host: string, sessionId: string): (uri: string)
    ensures CallbackPrefix(host) <= uri
    ensures (forall i :: 0 <= i < |sessionId| ==> Unreserved(sessionId[i])) ==>
              CallbackSessionId(host, uri) == Some(sessionId)
  {
    var uri := CallbackPrefix(host) + sessionId;
    assert uri[|CallbackPrefix(host)|..] == sessionId;
    var read := QueryValue(sessionId);
    assert (forall i :: 0 <= i < |sessionId| ==> Unreserved(sessionId[i])) ==>
           (forall i :: 0 <= i < |sessionId| ==> sessionId[i] != '&' && sessionId[i] != '#');
    assert (forall i :: 0 <= i < |sessionId| ==> Unreserved(sessionId[i])) ==> |read| == |sessionId|;
    assert |read| == |sessionId| ==> read == sessionId;
    uri
  }

  /** A session id with a '&' comes back cut short: "a&b" reads back as "a". */
  lemma UnencodedSessionIdIsCut(host: string)
    ensures CallbackSessionId(host, CallbackUri(host, "a&b")) == Some("a")
  {
    var prefix := CallbackPrefix(host);
    var uri := CallbackUri(host, "a&b");
    assert uri == prefix + "a&b";
    assert uri[|prefix|..] == "a&b";
    assert "a&b"[1..] == "&b";
    assert QueryValue("&b") == [];
    assert QueryValue("a&b") == "a";
  }

  // ---------------------------------------------------------------------------
  // getAuthQr
  // ---------------------------------------------------------------------------

  /** `{ fullName: { $eq: fullName } }`. */
  function FullNameSubject(fullName: string): (cs: CredentialSubject)
    ensures cs.Keys == {"fullName"}
    ensures RequiresEqual(cs, "fullName", fullName)
    ensures cs["fullName"].Keys == {"$eq"}
  {
    map["fullName" := map["$eq" := fullName]]
  }

  /** `request.body.scope ?? []`. */
  function ScopeOf(request: AuthRequest): (scope: seq<ProofQuery>)
    ensures request.body.scope.Some? ==> scope == request.body.scope.value
    ensures request.body.scope.None? ==> scope == []
  {
    match request.body.scope
    case Some(scope) => scope
    case None => []
  }

  /**
   * The request getAuthQr stores and sends: the base request with both ids
   * forced to the session id and one AadharCardSchema query on `fullName`
   * added after whatever scope the base request already had.
   */
  function Issue(base: AuthRequest, sessionId: string, fullName: string): (r: AuthRequest)
    ensures r.id == sessionId && r.thid == sessionId
    ensures r.from == base.from
    ensures r.body.callbackUrl == base.body.callbackUrl && r.body.reason == base.body.reason
    ensures r.body.scope.Some?
    ensures |ScopeOf(r)| == |ScopeOf(base)| + 1
    ensures ScopeOf(r)[..|ScopeOf(base)|] == ScopeOf(base)
    ensures ScopeOf(r)[|ScopeOf(base)|] == AadharCardSchema(FullNameSubject(fullName))
    ensures RequiresEqual(ScopeOf(r)[|ScopeOf(base)|].query.credentialSubject, "fullName", fullName)
  {
    var scope := ScopeOf(base) + [AadharCardSchema(FullNameSubject(fullName))];
    assert scope[..|ScopeOf(base)|] == ScopeOf(base);
    base.(id := sessionId, thid := sessionId, body := base.body.(scope := Some(scope)))
  }

  /** The two messages getAuthQr emits: IN_PROGRESS with the session id, then DONE with the request. */
  function IssueEvents(sessionId: string, request: AuthRequest): (events: seq<Emission>)
    ensures |events| == 2
    ensures forall e :: e in events ==> e.topic == sessionId && e.message.fn == "getAuthQr"
    ensures events[0].message.status == InProgress && events[1].message.status == Done
    ensures events[0].message.data == SessionId(sessionId)
    ensures events[1].message.data == Request(request)
  {
    [Emission(sessionId, SocketMessage(GetAuthQrFn, InProgress, SessionId(sessionId))),
     Emission(sessionId, SocketMessage(GetAuthQrFn, Done, Request(request)))]
  }

  // ---------------------------------------------------------------------------
  // handleVerification
  // ---------------------------------------------------------------------------

  /** The terminal status of a verification. */
  function TerminalStatus(outcome: Result<AuthResponse, VerifyError>): (s: Status)
    ensures s != InProgress
    ensures s == Done <==> outcome.Success?
  {
    if outcome.Success? then Done else Error
  }

  /**
   * The two messages handleVerification emits: IN_PROGRESS with the stored
   * request (or `undefined`), then exactly one terminal message, DONE with the
   * verifier's response or ERROR with what it threw.
   */
  function VerifyEvents(sessionId: string, stored: Option<AuthRequest>, outcome: Result<AuthResponse, VerifyError>)
    : (events: seq<Emission>)
    ensures |events| == 2
    ensures forall e :: e in events ==> e.topic == sessionId && e.message.fn == "handleVerification"
    ensures events[0].message.status == InProgress && events[0].message.data == StoredPayload(stored)
    ensures events[1].message.status == Done <==> outcome.Success?
    ensures events[1].message.status == Error <==> outcome.Failure?
    ensures outcome.Success? ==> events[1].message.data == Response(outcome.value)
    ensures outcome.Failure? ==> events[1].message.data == Thrown(outcome.error)
  {
    var terminal :=
      match outcome
      case Success(response) => SocketMessage(HandleVerificationFn, Done, Response(response))
      case Failure(error) => SocketMessage(HandleVerificationFn, Error, Thrown(error));
    [Emission(sessionId, SocketMessage(HandleVerificationFn, InProgress, StoredPayload(stored))),
     Emission(sessionId, terminal)]
  }

  /** `"User " + userId + " succesfully authenticated"` (spelled as in the source). */
  function SuccessText(userId: string): (t: string)
    ensures |t| == |userId| + 31
    ensures t[..5] == "User " && t[5..5 + |userId|] == userId
    ensures t[5 + |userId|..] == " succesfully authenticated"
  {
    "User " + userId + " succesfully authenticated"
  }

  /** The HTTP reply of handleVerification: 200 naming the user, or 500 carrying the error. */
  function VerifyResponse(outcome: Result<AuthResponse, VerifyError>): (r: HttpResponse)
    ensures r.status == 200 <==> outcome.Success?
    ensures r.status == 500 <==> outcome.Failure?
    ensures outcome.Success? ==> r.body == Text(SuccessText(outcome.value.from))
    ensures outcome.Failure? ==> r.body == ErrorValue(outcome.error)
  {
    match outcome
    case Success(response) => HttpResponse(200, Text(SuccessText(response.from)))
    case Failure(error) => HttpResponse(500, ErrorValue(error))
  }

  // ---------------------------------------------------------------------------
  // One session's life, as its topic's subscribers see it
  // ---------------------------------------------------------------------------

  /**
   * Issuing a challenge and then verifying it adds exactly four messages to
   * the session's topic: IN_PROGRESS and DONE of getAuthQr, then IN_PROGRESS
   * and DONE or ERROR of handleVerification.
   */
  lemma SessionLifecycle(
    log: seq<Emission>, s: string, request: AuthRequest,
    stored: Option<AuthRequest>, outcome: Result<AuthResponse, VerifyError>)
    ensures var before := EventsOn(log, s);
            var after := EventsOn(log + IssueEvents(s, request) + VerifyEvents(s, stored, outcome), s);
            |after| == |before| + 4 &&
            after[..|before|] == before &&
            Statuses(after[|before|..]) == [InProgress, Done, InProgress, TerminalStatus(outcome)] &&
            after[|before| + 1].data == Request(request)
  {
    var before := EventsOn(log, s);
    var added := LifecycleMessages(s, request, stored, outcome);
    AppendTwoRuns(log, IssueEvents(s, request), VerifyEvents(s, stored, outcome), s);
    var after := EventsOn(log + IssueEvents(s, request) + VerifyEvents(s, stored, outcome), s);
    assert after[..|before|] == before;
    assert after[|before|..] == added;
  }

  /** What a session's topic receives from one issue followed by one verification. */
  function LifecycleMessages(
    s: string, request: AuthRequest, stored: Option<AuthRequest>, outcome: Result<AuthResponse, VerifyError>)
    : (added: seq<SocketMessage>)
    ensures |added| == 4
    ensures Statuses(added) == [InProgress, Done, InProgress, TerminalStatus(outcome)]
    ensures added[1].data == Request(request)
  {
    var issue, verify := IssueEvents(s, request), VerifyEvents(s, stored, outcome);
    assert Messages(issue) == [issue[0].message, issue[1].message];
    assert Messages(verify) == [verify[0].message, verify[1].message];
    Messages(issue) + Messages(verify)
  }

  /** Two runs of emissions on one topic reach its subscribers whole and in order. */
  lemma AppendTwoRuns(log: seq<Emission>, a: seq<Emission>, b: seq<Emission>, topic: string)
    requires forall e :: e in a ==> e.topic == topic
    requires forall e :: e in b ==> e.topic == topic
    ensures EventsOn(log + a + b, topic) == EventsOn(log, topic) + Messages(a) + Messages(b)
  {
    AllOnTopic(a, topic);
    AllOnTopic(b, topic);
    EventsOnAppend(log, a, topic);
    EventsOnAppend(log + a, b, topic);
  }

  /** The messages of a run of emissions, in order. */
  function Messages(events: seq<Emission>): (messages: seq<SocketMessage>)
    ensures |messages| == |events|
    ensures forall i :: 0 <= i < |events| ==> messages[i] == events[i].message
  {
    seq(|events|, i requires 0 <= i < |events| => events[i].message)
  }

  /** When every emission is on `topic`, its subscribers receive all of them. */
  lemma {:induction false} AllOnTopic(events: seq<Emission>, topic: string)
    requires forall e :: e in events ==> e.topic == topic
    ensures EventsOn(events, topic) == Messages(events)
  {
    if events != [] {
      var init := events[..|events| - 1];
      AllOnTopic(init, topic);
      assert events[|events| - 1] in events;
      assert Messages(events) == Messages(init) + [events[|events| - 1].message];
    }
  }

  // ---------------------------------------------------------------------------
  // The `/` route
  // ---------------------------------------------------------------------------

  /** `Array.prototype.join`. */
  function Join(parts: seq<string>, separator: string): (joined: string)
    ensures |parts| == 0 ==> joined == ""
    ensures |parts| > 0 ==> parts[0] <= joined
    ensures |parts| > 0 ==> |parts[|parts| - 1]| <= |joined| &&
                            joined[|joined| - |parts[|parts| - 1]|..] == parts[|parts| - 1]
  {
    if |parts| == 0 then ""
    else if |parts| == 1 then parts[0]
    else parts[0] + separator + Join(parts[1..], separator)
  }

  predicate OccursAt(s: string, sub: string, k: int)
  {
    0 <= k && k + |sub| <= |s| && s[k..k + |sub|] == sub
  }

  /** Every joined part appears in the joined text. */
  lemma {:induction false} JoinContains(parts: seq<string>, separator: string, i: int)
    requires 0 <= i < |parts|
    ensures exists k :: OccursAt(Join(parts, separator), parts[i], k)
  {
    var joined := Join(parts, separator);
    if |parts| == 1 || i == 0 {
      assert OccursAt(joined, parts[i], 0);
    } else {
      var rest := Join(parts[1..], separator);
      JoinContains(parts[1..], separator, i - 1);
      assert parts[1..][i - 1] == parts[i];
      var k :| OccursAt(rest, parts[i], k);
      var head := parts[0] + separator;
      assert joined == head + rest;
      OccursAfter(head, rest, parts[i], k);
    }
  }

  /** An occurrence in the head of a text is an occurrence in the whole, at the same place. */
  lemma OccursBefore(head: string, tail: string, sub: string, k: int)
    requires OccursAt(head, sub, k)
    ensures OccursAt(head + tail, sub, k)
  {
    assert (head + tail)[k..k + |sub|] == head[k..k + |sub|];
  }

  /** An occurrence in the tail of a text is an occurrence in the whole, shifted by the head. */
  lemma OccursAfter(head: string, rest: string, sub: string, k: int)
    requires OccursAt(rest, sub, k)
    ensures OccursAt(head + rest, sub, |head| + k)
  {
    assert (head + rest)[|head| + k..|head| + k + |sub|] == rest[k..k + |sub|];
  }

  function DigitChar(d: nat): (c: char)
    requires d < 10
    ensures '0' <= c <= '9' && c as int - '0' as int == d
  {
    ('0' as int + d) as char
  }

  /** The value of a string of decimal digits. */
  function DigitsValue(s: string): nat
    requires forall i :: 0 <= i < |s| ==> '0' <= s[i] <= '9'
  {
    if s == [] then 0 else 10 * DigitsValue(s[..|s| - 1]) + (s[|s| - 1] as int - '0' as int)
  }

  /** A number as JavaScript's template literal writes it. */
  function DecimalString(n: nat): (s: string)
    ensures |s| >= 1
    ensures forall i :: 0 <= i < |s| ==> '0' <= s[i] <= '9'
    ensures DigitsValue(s) == n
    ensures s[0] == '0' ==> n == 0
  {
    if n < 10 then [DigitChar(n)]
    else
      var high := DecimalString(n / 10);
      var s := high + [DigitChar(n % 10)];
      assert s[..|s| - 1] == high;
      s
  }

  function RouteValues(paths: seq<(string, string)>): (values: seq<string>)
    ensures |values| == |paths|
    ensures forall i :: 0 <= i < |paths| ==> values[i] == paths[i].1
  {
    seq(|paths|, i requires 0 <= i < |paths| => paths[i].1)
  }

  const WelcomeIntro := "Welcome to your backend Polygon ID verifier server! There are "

  /** The welcome text of `GET /`: how many routes there are and their paths. */
  function WelcomeMessage(paths: seq<(string, string)>): (message: string)
    ensures WelcomeIntro <= message
    ensures |message| > |WelcomeIntro| + |DecimalString(|paths|)|
    ensures var count := message[|WelcomeIntro|..|WelcomeIntro| + |DecimalString(|paths|)|];
            (forall i :: 0 <= i < |count| ==> '0' <= count[i] <= '9') && DigitsValue(count) == |paths|
    ensures message[|message| - 1] == '.'
  {
    var count := DecimalString(|paths|);
    var message := WelcomeIntro + count + " routes available: " + Join(RouteValues(paths), " and ") + ".";
    assert message[|WelcomeIntro|..|WelcomeIntro| + |count|] == count;
    message
  }

  /** The welcome text names every route path. */
  lemma WelcomeListsEveryRoute(paths: seq<(string, string)>, i: int)
    requires 0 <= i < |paths|
    ensures exists k :: OccursAt(WelcomeMessage(paths), paths[i].1, k)
  {
    var values := RouteValues(paths);
    JoinContains(values, " and ", i);
    var k :| OccursAt(Join(values, " and "), values[i], k);
    var head := "Welcome to your backend Polygon ID verifier server! There are "
      + DecimalString(|paths|) + " routes available: ";
    var joined := Join(values, " and ");
    assert WelcomeMessage(paths) == head + (joined + ".");
    OccursBefore(joined, ".", values[i], k);
    OccursAfter(head, joined + ".", values[i], k);
  }

  /** The text the server actually sends for its two routes. */
  lemma WelcomeMessageText()
    ensures WelcomeMessage(ApiPaths)
         == "Welcome to your backend Polygon ID verifier server! There are " + "2" + " routes available: "
            + "/api/get-auth-qr" + " and " + "/api/verification-callback" + "."
  {
    assert |ApiPaths| == 2;
    assert DecimalString(|ApiPaths|) == "2";
    var values := RouteValues(ApiPaths);
    assert values == ["/api/get-auth-qr", "/api/verification-callback"];
    assert values[1..] == ["/api/verification-callback"];
    assert Join(values[1..], " and ") == "/api/verification-callback";
    var joined := Join(values, " and ");
    assert joined == "/api/get-auth-qr" + " and " + "/api/verification-callback";
    assert WelcomeMessage(ApiPaths) == WelcomeIntro + "2" + " routes available: " + joined + ".";
  }

  // ---------------------------------------------------------------------------
  // The server
  // ---------------------------------------------------------------------------

  /**
   * The running server: its configuration, the `authRequests` map and the
   * messages it has emitted so far.
   */
  class VerifierServer {
    /** HOSTED_SERVER_URL */
    const hostedServerUrl: string
    /** VERIFIER_DID */
    const verifierDid: string

    var authRequests: map<string, AuthRequest>
    var emitted: seq<Emission>

    constructor (hostedServerUrl: string, verifierDid: string)
      ensures this.hostedServerUrl == hostedServerUrl && this.verifierDid == verifierDid
      ensures authRequests == map[] && emitted == []
    {
      this.hostedServerUrl := hostedServerUrl;
      this.verifierDid := verifierDid;
      authRequests := map[];
      emitted := [];
    }

    /** `io.sockets.emit(topic, message)`. */
    method Emit(topic: string, message: SocketMessage)
      modifies this`emitted
      ensures emitted == old(emitted) + [Emission(topic, message)]
    {
      emitted := emitted + [Emission(topic, message)];
    }

    /** `GET /api/get-auth-qr?sessionId=…&fullName=…`. */
    method GetAuthQr(sessionId: string, fullName: string, createAuthorizationRequest: RequestBuilder)
      returns (response: HttpResponse)
      modifies this`authRequests, this`emitted
      ensures var base := createAuthorizationRequest(Reason, verifierDid, CallbackUri(hostedServerUrl, sessionId));
              var request := Issue(base, sessionId, fullName);
              && authRequests == old(authRequests)[sessionId := request]
              && emitted == old(emitted) + IssueEvents(sessionId, request)
              && response == HttpResponse(200, Json(request))
      ensures sessionId in authRequests
      ensures authRequests[sessionId].id == sessionId && authRequests[sessionId].thid == sessionId
      ensures forall k :: k != sessionId ==>
                (k in authRequests <==> k in old(authRequests)) &&
                (k in authRequests ==> authRequests[k] == old(authRequests)[k])
      ensures emitted[|old(emitted)| + 1].message.data == Request(authRequests[sessionId])
    {
      Emit(sessionId, SocketMessage(GetAuthQrFn, InProgress, SessionId(sessionId)));

      var uri := CallbackUri(hostedServerUrl, sessionId);
      var request := createAuthorizationRequest(Reason, verifierDid, uri);
      ghost var base := request;

      request := request.(id := sessionId);
      request := request.(thid := sessionId);

      var scope := ScopeOf(request);
      var credentialSubject := FullNameSubject(fullName);
      var customProofRequest := AadharCardSchema(credentialSubject);
      request := request.(body := request.body.(scope := Some(scope + [customProofRequest])));
      assert request == Issue(base, sessionId, fullName);

      authRequests := authRequests[sessionId := request];

      Emit(sessionId, SocketMessage(GetAuthQrFn, Done, Request(request)));

      response := HttpResponse(200, Json(request));
    }

    /** `POST /api/verification-callback?sessionId=…` with the (already read and trimmed) token as body. */
    method HandleVerification(sessionId: string, token: string, fullVerify: FullVerify)
      returns (response: HttpResponse)
      modifies this`emitted
      ensures authRequests == old(authRequests)
      ensures var stored := Lookup(authRequests, sessionId);
              var outcome := fullVerify(token, stored, VerifyOptions(300000));
              && emitted == old(emitted) + VerifyEvents(sessionId, stored, outcome)
              && response == VerifyResponse(outcome)
    {
      var authRequest := Lookup(authRequests, sessionId);

      Emit(sessionId, SocketMessage(HandleVerificationFn, InProgress, StoredPayload(authRequest)));

      var opts := VerifyOptions(AcceptedStateTransitionDelay);
      var outcome := fullVerify(token, authRequest, opts);
      match outcome {
        case Success(authResponse) =>
          var userId := authResponse.from;
          Emit(sessionId, SocketMessage(HandleVerificationFn, Done, Response(authResponse)));
          response := HttpResponse(200, Text("User " + userId + " succesfully authenticated"));
        case Failure(error) =>
          Emit(sessionId, SocketMessage(HandleVerificationFn, Error, Thrown(error)));
          response := HttpResponse(500, ErrorValue(error));
      }
    }
  }

  // ---------------------------------------------------------------------------
  // Callers' view
  // ---------------------------------------------------------------------------

  /** Issuing twice under one session id keeps only the second request. */
  method ReissueKeepsLatest(
    host: string, did: string, build: RequestBuilder, sessionId: string, first: string, second: string)
    returns (stored: AuthRequest)
    ensures stored == Issue(build(Reason, did, CallbackUri(host, sessionId)), sessionId, second)
    ensures var scope := ScopeOf(stored);
            |scope| > 0 && RequiresEqual(scope[|scope| - 1].query.credentialSubject, "fullName", second)
  {
    var server := new VerifierServer(host, did);
    var _ := server.GetAuthQr(sessionId, first, build);
    var _ := server.GetAuthQr(sessionId, second, build);
    stored := server.authRequests[sessionId];
  }

  /**
   * A callback for a session that was never issued still calls the verifier,
   * with `undefined` as the request, and announces that `undefined`.
   */
  method UnknownSessionPassesUndefined(host: string, did: string, sessionId: string, token: string, fullVerify: FullVerify)
    returns (announced: Payload, response: HttpResponse)
    ensures announced == Undefined
    ensures response == VerifyResponse(fullVerify(token, None, VerifyOptions(300000)))
  {
    var server := new VerifierServer(host, did);
    response := server.HandleVerification(sessionId, token, fullVerify);
    announced := server.emitted[0].message.data;
  }

  /**
   * One session end to end: the verification callback for a session reads
   * back exactly the request that getAuthQr stored for it, and the session's
   * topic sees four messages, the first DONE and the second IN_PROGRESS both
   * carrying that request.
   */
  method IssueThenVerify(
    host: string, did: string, build: RequestBuilder, sessionId: string, fullName: string,
    token: string, fullVerify: FullVerify)
    returns (issued: AuthRequest, response: HttpResponse, announced: seq<SocketMessage>)
    ensures issued == Issue(build(Reason, did, CallbackUri(host, sessionId)), sessionId, fullName)
    ensures response == VerifyResponse(fullVerify(token, Some(issued), VerifyOptions(300000)))
    ensures |announced| == 4
    ensures Statuses(announced)
         == [InProgress, Done, InProgress, TerminalStatus(fullVerify(token, Some(issued), VerifyOptions(300000)))]
    ensures announced[1].data == Request(issued) && announced[2].data == Request(issued)
  {
    var server := new VerifierServer(host, did);
    var _ := server.GetAuthQr(sessionId, fullName, build);
    issued := server.authRequests[sessionId];
    response := server.HandleVerification(sessionId, token, fullVerify);
    announced := EventsOn(server.emitted, sessionId);
    var outcome := fullVerify(token, Some(issued), VerifyOptions(300000));
    AppendTwoRuns([], IssueEvents(sessionId, issued), VerifyEvents(sessionId, Some(issued), outcome), sessionId);
    assert server.emitted == [] + IssueEvents(sessionId, issued) + VerifyEvents(sessionId, Some(issued), outcome);
    assert announced == LifecycleMessages(sessionId, issued, Some(issued), outcome);
  }
}
