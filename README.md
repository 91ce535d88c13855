# Instagram comment webhook relay — a Dafny model

This project models the request-handling core of a small Node/Express relay.
The relay receives Instagram webhook notifications about new comments. It
authenticates them with an HMAC-SHA256 signature, enriches each comment with
the comment and media records fetched from the Graph API, and forwards one
normalized `new_comment` document per comment to a Zapier webhook.

Three request decisions are modelled:

- **Subscription handshake** (`GET /webhook`, module `Handshake`). The
  `hub.challenge` is echoed with status 200 only when `hub.mode` is
  "subscribe" and `hub.verify_token` is the configured token. Every other
  request gets 403 "Forbidden".
- **Signature check** (`verifySignature`, module `Signature`). The
  `X-Hub-Signature-256` header must be exactly "sha256=" followed by the hex
  HMAC of the payload under the app secret. The hash is a parameter
  `hmacHex(secret, payload)`.
- **Notification dispatcher** (`POST /webhook`, modules `Dispatcher` and
  `DispatcherProperties`). It gates on the signature and on
  `object == "instagram"`. It then walks `entry` and each entry's optional
  `changes` in order, and acts only on changes whose `field` is "comments".
  For each such change it looks up the comment and the media, assembles the
  document (module `Events`) and forwards it when both lookups answered.
  Finally it answers 200 "OK".

The outbound calls go through a `Network.Client` object. It answers lookups
from a fixed `GraphApi` (the records the platform would return, or `None` on
any failure), and it appends every call it makes to its `log`: comment
lookup, media lookup, forward. `Dispatcher.Run` is a left fold over the
flattened changes, and `Dispatcher.Dispatch` specifies one whole request.
`HandleWebhookPost` is the handler. `WalkEntries` and `WalkChanges` hold its two nested loops, outer and inner. The handler is proved to
append exactly `Dispatch(...).calls` to the log and to end with
`Dispatch(...).outcome`.

A payload the code cannot walk makes the handler raise a TypeError. This
happens when `entry` is missing, or when a comment change has no `value` or
no `value.media`. The model reports this as the outcome `Threw(fault)`, and
the calls made before the raise stay in the log. An identifier reaches the
lookup URL as JavaScript's template string writes it: an absent one as
"undefined", a null one as "null".

In two places the code does something a reader might not expect; the model
follows the code:

- The signature is computed over the re-serialized body
  (`JSON.stringify(req.body)`), not over the raw bytes received.
  Serialization is the parameter `stringify`.
- A missing `entry`, `change.value` or `change.value.media` raises; it is not
  skipped silently.

## Model

| member | source | states |
|---|---|---|
| `Handshake.Verify` | server.js:17-31 | status 200 iff mode is "subscribe" and the token is the configured one; then the body is exactly the challenge; otherwise 403 "Forbidden" |
| `Handshake.RefusalIgnoresChallenge` | server.js:24-30 | a refused handshake gives the same 403 "Forbidden" whatever the challenge, so the challenge is never echoed |
| `Handshake.WrongTokenNeverEchoes` | server.js:24-29 | without the configured token every request is refused, whatever its mode |
| `Signature.VerifySignature` | server.js:34-41 | valid iff the header is present, starts with "sha256=", and the rest is the HMAC hex digest of the payload under the secret |
| `Signature.OnlyTheDigestIsAccepted` | server.js:34-41 | "sha256=" plus the digest is accepted, and every accepted header equals it |
| `Signature.MissingHeaderIsRejected` | server.js:40 | a missing header is never valid |
| `Events.CaptionOrEmpty` | server.js:130 | the caption is "" exactly when it is absent or empty; otherwise it is the fetched caption |
| `Events.Assemble` | server.js:120-136 | event_type "new_comment"; comment id/text/username/timestamp and post id/media_type/permalink/timestamp copied from the records; caption defaulted; time as given |
| `Events.AssembleKeepsCopiedFields` | server.js:120-136 | two record pairs give the same document iff they agree on the copied fields and the defaulted caption |
| `Network.Client.GetCommentDetails` | server.js:44-57 | answers the API's record or `None` and logs exactly one comment lookup |
| `Network.Client.GetMediaDetails` | server.js:60-73 | answers the API's record or `None` and logs exactly one media lookup |
| `Network.Client.SendToZapier` | server.js:76-83 | logs exactly one forward of the document and returns nothing, so failures cannot surface |
| `Dispatcher.IdText` | server.js:46 | a string identifier is used as it is, an absent one becomes "undefined", a null one "null", as the template literals at lines 46 and 62 write them |
| `Dispatcher.Classify` | server.js:105-108 | a change on another field is ignored; a "comments" change raises when `value` is missing, else when `value.media` is missing, and otherwise looks up the two identifiers |
| `Dispatcher.StepShape` | server.js:105-140 | after a raise nothing changes; otherwise the fault is the change's own; calls are only appended, at most three; a forward happens at most once, after the comment-then-media lookups, and is stamped with the next clock reading |
| `Dispatcher.RunBounds` | server.js:102-104 | a walk of n changes makes at most 3n calls and at most n forwards, and each forward comes with its two lookups |
| `Dispatcher.ChangesMembership` | server.js:102-104 | the walked changes are exactly the changes of the entries: every one comes from some entry, and every entry's changes are walked |
| `Dispatcher.Dispatch` | server.js:86-148 | invalid signature: 403 and no calls; valid signature: 200 "OK" unless the payload raises; object other than "instagram": no calls |
| `Dispatcher.FaultIsFinal` | server.js:102-108 | after a raising change, later changes add no call and change nothing |
| `Dispatcher.ProcessChange` | server.js:105-140 | one change has exactly the effect of `Step`: ignored, raises, or two lookups and a forward only if both answered |
| `Dispatcher.WalkChanges` | server.js:103-143 | the inner loop over one entry's changes extends the log and the count exactly as `Run` over the changes walked so far plus these, and stops with its fault |
| `Dispatcher.WalkEntries` | server.js:102-145 | the outer loop over the entries appends exactly `Run(Changes(entries)).calls` to the log and stops with its fault |
| `Dispatcher.HandleWebhookPost` | server.js:86-148 | the handler appends exactly `Dispatch(...).calls` to the log and ends with `Dispatch(...).outcome` |
| `DispatcherProperties.RunFaultIsFirstFault` | server.js:105-108 | the walk raises iff some comment change lacks `value` or `value.media`, and with the first such change's error |
| `DispatcherProperties.FaultHaltsDispatch` | server.js:102-108 | a raising walk makes exactly the calls of the well-formed changes before the first malformed one, and touches nothing after it |
| `DispatcherProperties.NonCommentChangesAreInert` | server.js:104-105 | walking all changes equals walking only the "comments" changes: other fields cause no lookup and no forward |
| `DispatcherProperties.EntryWithoutChangesIsInert` | server.js:103 | an entry without `changes` contributes nothing, wherever it stands |
| `DispatcherProperties.ForwardsAtMostCommentChanges` | server.js:113-139 | forwards equal the count `sent`; twice the forwards is at most the number of lookups, which is at most twice the comment changes |
| `DispatcherProperties.LookupsFollowCommentChanges` | server.js:102-116 | on a well-formed walk the lookups are one comment-then-media pair per comment change, in change order |
| `DispatcherProperties.ForwardsFollowChanges` | server.js:102-139 | on a well-formed walk the forwards are exactly the documents of the comment changes whose two lookups answered, in change order, the n-th stamped with the n-th clock reading |
| `DispatcherProperties.EarlierChangesCallFirst` | server.js:102-139 | all calls of earlier changes, forwards included, come before any call of a later change |
| `DispatcherProperties.ResponseIgnoresLookups` | server.js:113-147 | the request's outcome is the same whatever the lookups answer and whatever the clock reads |
| `DispatcherProperties.WhenDispatchRaises` | server.js:99-108 | under a valid signature and the "instagram" object, the request raises iff `entry` is missing (then with no call) or some comment change lacks `value` or `value.media` (then with the first such error) |
| `DispatcherProperties.WellFormedNotification` | server.js:99-147 | a valid, well-formed "instagram" notification is answered 200 "OK" and forwards and looks up exactly as above |

## Left out

- The Express application: route registration, `app.listen`, the `GET /health` endpoint and the SIGTERM/SIGINT handlers (server.js:1-14, 151-172).
- Reading the configuration from environment variables and its defaults (server.js:6-12). The configuration is the immutable `Server.Config` record.
- The HTTP requests themselves (server.js:44-83). Lookups are answered by the `GraphApi` oracle, and a forward is an entry in the client's log whether or not the POST succeeds.
- The HMAC-SHA256 digest and its hex encoding (server.js:35-38). They are the parameter `hmacHex`.
- `JSON.stringify` of the parsed body (server.js:88). It is the parameter `stringify`. It applies to the `Envelope`, which keeps only the fields the handler reads, while the code serializes the whole body (for example `entry[].id`, `entry[].time`, `value.text`, `value.from`). So in the model, two bodies that differ only in the dropped fields get the same signature verdict.
- Independent answers to repeated lookups: a `GraphApi` answers by identifier, so within one request two lookups of the same comment or media identifier are assumed to answer alike. In the code each lookup is its own request (server.js:46, 62), and one can fail while the other succeeds, for example for two comments on the same post.
- The concurrency of the two lookups under `Promise.all` (server.js:113-116). They are independent reads; the log records the comment lookup first, in the order the calls are issued.
- `new Date().toISOString()` (server.js:135). It is the parameter `clock`, read once per assembled document.
- All console logging.
- What Express and Node do once the handler raises (no response is sent by the handler; the rejected promise is left to the runtime). The model stops at `Threw`.
- JSON shapes the datatypes cannot express: an `entry` or `changes` that is present but not an array, null or non-object items in them, non-string values for `object`, `field` or identifiers (other than null), and query parameters repeated into arrays. An identifier may be a string, absent or null; any other absent or null field is `None`. Other shapes are not modelled.
