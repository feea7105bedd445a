# Polygon ID verifier server, modelled in Dafny

This project models the core of a small Polygon ID verifier server. A front-end asks it for an
authorization request for a session (`GET /api/get-auth-qr`). The server builds an iden3
authorization request whose id and thread id are the session id. It adds one AadharCardSchema
proof query on the user's full name, keeps the request in an in-memory map under the session id,
and returns it so it can be shown as a QR code. The wallet later posts its signed response to the
callback URI embedded in the request (`POST /api/verification-callback?sessionId=…`). The server
then looks up the stored request and hands both to the iden3 verifier. Every step is announced as
a `{fn, status, data}` message on a socket topic named after the session.

Files:

- `wrappers.dfy` (module `Wrappers`): `Option` stands for JavaScript's `undefined`, and `Result`
  for a call that either returns or throws.
- `aadhar_card_schema.dfy` (module `VcHelpers`): the AadharCardSchema proof-query record.
- `server.dfy` (module `Server`): the data model of requests, socket messages and HTTP replies.
  It also holds the specification functions for what each handler stores, emits and answers,
  the per-topic view of the emitted messages, the welcome text of `GET /`, and the class
  `VerifierServer`. That class keeps the `authRequests` map and the log of emitted messages as
  fields, and its handlers are methods.

The two iden3 calls are parameters of type "function". `auth.createAuthorizationRequest` is a
`RequestBuilder` and `verifier.fullVerify` is a `FullVerify`, which returns `Success(response)`
or `Failure(error)`. Every handler property therefore holds whatever the library returns.

The environment values `HOSTED_SERVER_URL` and `VERIFIER_DID` are constant fields of the server.

For a session that was never issued, the code passes `undefined` to the verifier and announces
`undefined`. The model does the same: `Lookup` gives `None`, and the message carries `Undefined`.
The code has no NOT_FOUND path and never removes a request after verifying it. The model follows
the code: `HandleVerification` never changes `authRequests`.

The callback URI interpolates the session id without percent-encoding it. `CallbackUri` proves
that the verification route reads the id back intact when the id is made of unreserved characters.
`UnencodedSessionIdIsCut` shows that the id `a&b` reads back as `a`.

## Model

| member | source | states |
|---|---|---|
| `VcHelpers.AadharCardSchema` | vcHelpers/AadharCardSchema.js:2-11 | query id 1, circuit `credentialAtomicQuerySigV2`, allowed issuers exactly `["*"]` so every issuer is trusted, type `AadharCardSchema`, the fixed dock.io JSON-LD context, and the credentialSubject passed through unchanged |
| `Server.EventsOn` | index.js:70-73 | a topic's subscribers receive only messages that were emitted on that topic, and no more messages than were emitted |
| `Server.EventsOnAppend` | index.js:98 | what a topic receives from two runs of emissions is what it receives from the first, followed by what it receives from the second |
| `Server.OtherTopicsUntouched` | index.js:96-98 | emissions on the topic of one session change nothing that the subscribers of any other session receive |
| `Server.AllOnTopic` | index.js:110-113 | when every emission is on the topic, its subscribers receive every message, in emission order |
| `Server.Lookup` | index.js:106 | the lookup is absent exactly when the session has no stored request; otherwise it is the stored request |
| `Server.StoredPayload` | index.js:110-113 | the IN_PROGRESS data of a verification is `undefined` exactly when no request is stored, and is the stored request otherwise |
| `Server.QueryValue` | index.js:75 | the raw query value is the longest prefix without `&` or `#` |
| `Server.CallbackSessionId` | index.js:104 | for a URI of the shape the server builds (the callback route, `?sessionId=`, then a raw value), the id read is a prefix of that value and contains no `&` or `#`; other URI shapes give no id |
| `Server.CallbackUri` | index.js:75 | the URI starts with this server's verification-callback route and `?sessionId=`; the route reads back the session id for every id made of unreserved characters |
| `Server.UnencodedSessionIdIsCut` | index.js:75 | because the id is not percent-encoded, the id `a&b` reads back as `a` |
| `Server.FullNameSubject` | index.js:87-91 | the credential subject constrains exactly one attribute, `fullName`, with exactly one operator, `$eq`, equal to the given name |
| `Server.ScopeOf` | index.js:85 | the scope is the request's own scope when present, and `[]` when it is absent |
| `Server.Issue` | index.js:76-94 | both ids equal the session id; sender, callback URL and reason come from the base request; the scope is present and holds the base scope (or `[]` when absent) followed by exactly one query, which is `AadharCardSchema` of the subject `{fullName: {$eq: name}}` |
| `Server.IssueEvents` | index.js:70-98 | getAuthQr emits exactly two messages, both on the session's topic with fn `getAuthQr`: IN_PROGRESS carrying the session id, then DONE carrying the request |
| `Server.TerminalStatus` | index.js:134-158 | the final status of a verification is never IN_PROGRESS, and it is DONE exactly when the verifier succeeded |
| `Server.VerifyEvents` | index.js:110-156 | handleVerification emits exactly two messages on the session's topic: IN_PROGRESS carrying the lookup result, then exactly one terminal message. That message is DONE with the verifier's response if and only if the verifier succeeded, and ERROR with the thrown error if and only if it failed |
| `Server.SuccessText` | index.js:147 | the confirmation is `User `, the user id, then ` succesfully authenticated` |
| `Server.VerifyResponse` | index.js:139-157 | the reply is 200 if and only if the verifier succeeded, with a confirmation naming the response's `from`; it is 500 if and only if the verifier failed, with the raw error as body |
| `Server.SessionLifecycle` | index.js:64-158 | issuing a request and then verifying it adds exactly four messages to the session's topic, after the earlier ones: IN_PROGRESS, DONE (carrying the request), IN_PROGRESS, then DONE or ERROR |
| `Server.LifecycleMessages` | index.js:70-156 | one issue followed by one verification yields four messages on the topic, with statuses IN_PROGRESS, DONE, IN_PROGRESS, then DONE or ERROR; the second message carries the issued request |
| `Server.AppendTwoRuns` | index.js:96-156 | two runs of emissions on one topic reach its subscribers whole, in order, after everything the topic received before |
| `Server.Join` | index.js:23 | joining no parts gives the empty text; otherwise the text starts with the first part and ends with the last |
| `Server.JoinContains` | index.js:23 | every joined path appears in the joined text |
| `Server.DecimalString` | index.js:21-22 | the route count is written as decimal digits whose value is the count, with no leading zero unless the count is 0 |
| `Server.RouteValues` | index.js:23 | the listed paths are the values of `apiPath`, in key order |
| `Server.WelcomeMessage` | index.js:20-24 | the welcome text starts with the fixed greeting, follows it with the decimal route count, and ends with a full stop |
| `Server.WelcomeListsEveryRoute` | index.js:19-25 | the welcome text contains the path of every route |
| `Server.WelcomeMessageText` | index.js:19-25 | for the server's two routes, the welcome text says that there are 2 routes, `/api/get-auth-qr` and `/api/verification-callback` |
| `Server.IssueThenVerify` | index.js:96-138 | after getAuthQr for a session, the callback for that session hands the verifier exactly the stored request, with a delay of 300000 ms, and replies with the verdict. The session's topic sees four messages, the second (DONE) and third (IN_PROGRESS) both carrying that request |
| `Server.VerifierServer.constructor` | index.js:37 | the server starts with an empty `authRequests` map and nothing emitted |
| `Server.VerifierServer.Emit` | index.js:70-73 | an emit appends exactly one message on the given topic and changes nothing else |
| `Server.VerifierServer.GetAuthQr` | index.js:64-101 | the request is `Issue` of the library's base request, which was built from the fixed reason, the verifier DID and the session's callback URI. It is stored under the session id, overwriting any earlier request, and every other key keeps its entry. Exactly two messages are appended: IN_PROGRESS, then DONE carrying the stored request. The reply is 200 with the request |
| `Server.VerifierServer.HandleVerification` | index.js:103-159 | `authRequests` is unchanged. The verifier gets the token, the lookup result (possibly `undefined`) and a state-transition delay of 300000 ms. The messages appended are `VerifyEvents` and the reply is `VerifyResponse` of what the verifier returned |
| `Server.ReissueKeepsLatest` | index.js:96 | after two issues for one session, only the second request is stored, and its last query asks for the second name |
| `Server.UnknownSessionPassesUndefined` | index.js:106-113 | a callback for a session that was never issued announces `undefined` and still replies with the verifier's verdict on an `undefined` request |

## Left out

- HTTP plumbing (Express routing, CORS, `app.listen`, the port, `console.log`) is not modelled. A handler's reply is a returned `HttpResponse` value.
- socket.io delivery is not modelled. An emit is an append to the server's `emitted` log, and `EventsOn` is what a subscriber of one topic sees. Subscribers that connect late miss earlier messages, and that is a transport matter.
- Reading the request body (`getRawBody`) and trimming it are not modelled. `HandleVerification` takes the token as a string that has already been read. A failure while reading the body (which the source does not catch) is not modelled.
- `auth.createAuthorizationRequest` is not modelled: it is a parameter, and its random message ids are overwritten by the session id anyway. Authorization request fields other than ids, sender and body (`typ`, `type`) are not modelled.
- The verifier construction (`EthStateResolver` on the Mumbai contract, `FSKeyLoader("./keys")`, `UniversalSchemaLoader("ipfs.io")`) and `fullVerify` are not modelled: `fullVerify` is a parameter. So is anything it might do to the request passed to it.
- Concurrency between `await` points is not modelled: each handler call is atomic. The implicit global `authResponse` has no observable effect under that assumption.
- A missing `sessionId` or `fullName` query parameter is not modelled. Such a value would become `undefined` in the source, and parameters are strings here.
- Percent-decoding and `+` handling in query parsing are not modelled. `CallbackSessionId` reads the raw value, and it coincides with decoding only for unreserved characters, which is all that `CallbackUri` claims.
- Credential-subject operands are modelled as strings. The query language also allows numbers and lists, which this server never builds.
- The JavaScript request object is updated in place. The model updates a value inside `GetAuthQr`. The same value is stored, emitted and returned, as the one object is in the source.
- proofRequest.js is not part of this model: nothing imports it, and it only holds constants.
- `io.sockets.emit(sessionId, …)` (index.js:70, 98, 110, 140, 153) broadcasts an event named after the session to every connected client. "Topic" and "subscriber" in `EventsOn` and `OtherTopicsUntouched` mean only the event name a client listens for. They say nothing about which clients may listen, so they give no confidentiality between sessions.
- `res.status(500).send(error)` (index.js:157) serialises an Error object as JSON, which is `{}` for a plain Error. `VerifyResponse`'s "the raw error as body" holds only for the value handed to `send`, not for the bytes on the wire.
- The wire strings of the statuses (`IN_PROGRESS`, `ERROR`, `DONE` at index.js:52-56) are not rendered. Messages carry the `Status` datatype, and JSON serialisation is not modelled.
- `CallbackSessionId` reads only URIs made of the callback prefix and a raw value, which is the shape `CallbackUri` builds. It does not model the other URIs Express would route and parse: other parameters before `sessionId` (`?x=1&sessionId=abc` reads `abc`), a repeated key (which gives an array), a trailing slash or another letter case in the path. For those the model gives `None`.
- `Emit` treats every session id as a usable event name. socket.io's broadcast `emit` throws for its reserved event names (`connect`, `connect_error`, `disconnect`, `disconnecting`, `newListener`, `removeListener`). For such a session id, getAuthQr throws at index.js:70 before it builds or stores anything. handleVerification throws at index.js:110 before it reads the body or calls the verifier. Neither rejection is caught, so no reply is sent. The model stores, emits and replies for every id.
- The response that `fullVerify` returns, and that DONE broadcasts whole (index.js:142), has more fields than `id`, `thid` and `from` (`typ`, `type`, `to`, `body` with the proofs). Only those three are modelled.
- Whether `fullVerify` reads the option under the key `AcceptedStateTransitionDelay` is a matter for the library and is not modelled. `VerifyOptions` keeps the source's spelling of the key.
