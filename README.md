# RavenDB Node.js client: request dispatch, index field options, API-key handshake

A Dafny model of three pieces of the client's decision logic. Each piece's
I/O is taken as an input rather than computed.

- **Request dispatch** (`request_executor.dfy`, module `Requests`). This covers:
  - the `RequestExecutor`'s fixed headers and how they are merged into a command's request;
  - how the outcome of one `executeCommand` is classified;
  - the one-hop failover of `execute` / `fallbackToNextNode` over the command's failed-node set;
  - the one-shot "first topology update completed" latch, with its TOPOLOGY_UPDATED events.

  The executor is a class whose fields the methods update. Its fields are:
  - the latch;
  - a count of started topology updates;
  - the log of requests `executeCommand` sends;
  - the log of emitted events.

  `ServerNode`, `NodeSelector` and `RavenCommand` are small classes holding only the fields the executor touches. The network's answer to each dispatch is an `Attempt`, which holds the measured round-trip time and either no response or a response with status, headers and body.
- **Index field options** (`index_field_options.dfy`, module `IndexFields`). This covers the constructor and `toJson`. JavaScript's two absent values are kept apart with the three-valued `Js.JsOpt` (`Null`, `Undefined`, `Val`), because the serialiser's storage test distinguishes them.
- **API-key handshake** (`api_key_authenticator.dfy`, module `ApiKeyAuth`). This covers:
  - the empty-key guard;
  - the `split('/', 2)` of the key into name and secret;
  - the padding length of `buildServerRequest`;
  - the per-URL public-key cache;
  - the status policy of the validation request, including its retry on 417.

  The server is two scripts of replies, one for public-key requests and one for validation requests. The outcomes of the crypto and base64 libraries ride on those replies. `TryAuthenticate` is the whole handshake as a function. `ApiKeyAuthenticator.Authenticate` is the imperative version, a loop over the scripts that updates the cache map in place, and it is proved equal to that function.

`js.dfy` (module `Js`) holds the shared JavaScript value model: null versus undefined, truthiness, plain objects, `Option` and `Result`.

`status_codes.dfy` (module `StatusCodes`) holds the status codes both modules test. They are those of RFC 9110 section 15:
- 200 (section 15.3.1);
- 403 (15.5.4);
- 404 (15.5.5);
- 408 (15.5.9);
- 417 (15.5.18);
- 500 (15.6.1);
- 502 (15.6.3);
- 503 (15.6.4);
- 504 (15.6.5).

### Behaviour of the code worth noting

- **A 408, 502, 503 or 504 response is never node-down.** The node-down rejection at `RequestExecutor.ts:155` sits in the `else` branch of the very test it repeats, so it never runs. Such a response loses its body and is handed to `setResponse`. `Requests.Classify` keeps the dead branch, and `Requests.NodeDownIffNoResponse` proves it dead.
- **Failover happens at most once per `execute`.** The promise `fallbackToNextNode` returns is not caught again, so a second node-down reaches the caller (`Requests.RequestExecutor.AfterTopologyWait`). With three or more nodes, a reachable node may therefore never be tried.

## Model

| member | source | states |
|---|---|---|
| `Requests.ExecutorHeaders` | src/Http/Request/RequestExecutor.ts:61-65 | exactly the keys Accept, Has-Api-key and Raven-Client-Version; Accept is application/json and the version 4.0.0.0; Has-Api-key is 'false' iff the api key is null or undefined, and 'true' iff it is present |
| `Requests.PrepareHeaders` | src/Http/Request/RequestExecutor.ts:99-115 | the headers `prepareCommand` puts on a request: the command's, overwritten by the executor's, then the node's token when present, then the selector's etag in multi-node mode; its properties are stated by `Requests.PreparedHeaders` |
| `Requests.PreparedHeaders` | src/Http/Request/RequestExecutor.ts:99-115 | the prepared header set is the command's keys plus the executor's, plus Raven-Authorization when a token is present, plus Topology-Etag in multi-node mode; executor headers override command headers; the token and the selector's etag are the values of their headers; other command headers are kept |
| `Requests.ExecutorHeadersWin` | src/Http/Request/RequestExecutor.ts:102-108 | whatever the command sets, a prepared request carries the executor's Accept, version and Has-Api-key values, and the node's token in single- and multi-node mode alike |
| `Requests.TopologyEtagOnlyInMultiNodeMode` | src/Http/Request/RequestExecutor.ts:110-112 | Topology-Etag carries the selector's etag if and only if topology updates are enabled, for a command that does not set Topology-Etag itself |
| `Requests.Classify` | src/Http/Request/RequestExecutor.ts:135-180 | no response is node-down for that node's url; a 403 outside the server-error set is an authorization error for that node; any other response is handed to `setResponse`, without its body exactly for 404, 408, 502, 503 and 504, and its outcome is the result; a topology refresh starts iff updates are enabled and the response has a Refresh-Topology header |
| `Requests.ParseResult` | src/Http/Request/RequestExecutor.ts:173-179 | the value `setResponse` returns is the result; an exception it throws makes the result a failure carrying that exception's message |
| `Requests.NodeDownIffNoResponse` | src/Http/Request/RequestExecutor.ts:135-157 | a dispatch is node-down if and only if it got no response: no status, server errors included, ever yields node-down |
| `Requests.ServerErrorIsParsedWithoutBody` | src/Http/Request/RequestExecutor.ts:144-157 | a 408, 502, 503 or 504 response is not node-down; it is parsed by `setResponse` with its body removed |
| `Requests.ForbiddenSkipsParser` | src/Http/Request/RequestExecutor.ts:159-171 | a 403 gives the authorization error whatever `setResponse` would do, so the parser is not consulted, and no topology refresh starts |
| `Requests.NoRefreshInSingleNodeMode` | src/Http/Request/RequestExecutor.ts:169-171 | with topology updates disabled, no response starts a topology refresh |
| `Requests.AttemptOutcome` | src/Http/Request/RequestExecutor.ts:117-181 | a value that is not a command is rejected with InvalidOperationException before any request; a failed preparation is a non-node-down failure with no request; once a request is sent, the outcome is the classification of its reply |
| `Requests.OutcomeAt` | src/Http/Request/RequestExecutor.ts:125-181 | for a command and a node given by url and database: a request the command cannot build is a PreparationException carrying the builder's message, with no refresh; a built request's outcome is the classification of its reply |
| `Requests.NodeDownNeedsNoResponse` | src/Http/Request/RequestExecutor.ts:117-157 | an attempt ends in node-down if and only if a request was sent and got no response |
| `Requests.RavenCommand.AddFailedNode` | src/Http/Request/RequestExecutor.ts:188 | the failed-node set grows by exactly the failed node |
| `Requests.FetchEffect` | src/Http/Request/RequestExecutor.ts:205-219 | one fetch of a URL's topology emits at most one event, sends at most one request and starts at most one refresh; it succeeded iff it emitted an event, and that event is TOPOLOGY_UPDATED for this URL and the initial database, with forceUpdate false |
| `Requests.FetchSucceeds` | src/Http/Request/RequestExecutor.ts:205-219 | a fetch succeeds iff its request was built and got a response other than 403 that `setResponse` parsed; the event then carries the parsed topology; a request without a token is sent iff it was built; a topology update starts iff the response asks for one in multi-node mode |
| `Requests.CycleEvents` | src/Http/Request/RequestExecutor.ts:203-221 | every event of a cycle is TOPOLOGY_UPDATED for one of the initial URLs, carrying the initial database and forceUpdate false; a cycle succeeded iff it emitted an event; a cycle of n completed fetches emits at most n events, sends at most n requests and starts at most n refreshes |
| `Requests.RequestExecutor.constructor` | src/Http/Request/RequestExecutor.ts:58-77 | the executor headers are built from the api key; topology updates are disabled iff fewer than two URLs are given; the latch starts unset; one topology update is started; no request or event yet |
| `Requests.RequestExecutor.RequestFor` | src/Http/Request/RequestExecutor.ts:99-115 | the prepared request goes to the node's url; it carries every executor header except the two it sets later with the executor's value, the node's token as Raven-Authorization when present, and the selector's etag as Topology-Etag when topology updates are on |
| `Requests.RequestExecutor.ExecuteCommand` | src/Http/Request/RequestExecutor.ts:117-181 | the result is the attempt's outcome; exactly the prepared request is logged when one is sent; the node's responseTime is written iff a request was sent, whatever the outcome; the node's token is unchanged; the refresh count grows iff the outcome asks for a refresh |
| `Requests.RequestExecutor.FallbackToNextNode` | src/Http/Request/RequestExecutor.ts:183-199 | the failed node joins the command's failed set and REQUEST_FAILED is emitted for it; an absent or already-failed next node gives AllTopologyNodesDownException with no request; otherwise exactly one further attempt on that node is the result |
| `Requests.RequestExecutor.Execute` | src/Http/Request/RequestExecutor.ts:79-91 | the node is read from the selector before the topology wait, and the whole effect, node fields included, is the one `AfterTopologyWait` states for that node |
| `Requests.RequestExecutor.AfterTopologyWait` | src/Http/Request/RequestExecutor.ts:82-97 | while the latch is unset nothing is sent, logged or failed, no node's response time changes, and the execution keeps waiting; once set, only node-down fails over, once, to the re-read node; every other first outcome, and every second outcome, node-down included, is the result; a node's response time changes only when a request is sent to it, and no node's token changes |
| `Requests.RequestExecutor.FetchTopology` | src/Http/Request/RequestExecutor.ts:205-219 | the events, requests and refresh count grow by exactly the one fetch's effect, and the fetch reports success iff that effect succeeded |
| `Requests.RequestExecutor.CompleteTopologyUpdate` | src/Http/Request/RequestExecutor.ts:201-226 | the events, requests and refresh count grow by exactly the cycle's effect; the latch is set iff it was already set or some fetch succeeded, so it is never reset |
| `IndexFields.New` | src/Database/Indexes/IndexFieldOptions.ts:6-23 | every field holds its constructor argument, undefined ones included, so no null initialiser survives an omitted argument |
| `IndexFields.EnumJson` | src/Database/Indexes/IndexFieldOptions.ts:26-28 | an enum slot serialises to null iff it is falsy (null, undefined or empty), and otherwise to its own string |
| `IndexFields.StorageJson` | src/Database/Indexes/IndexFieldOptions.ts:29 | the storage slot serialises to null iff it is exactly null, to 'Yes' iff it is true, and to 'No' iff it is false or undefined |
| `IndexFields.ToJson` | src/Database/Indexes/IndexFieldOptions.ts:25-40 | the record has exactly the seven keys Analyzer, Indexing, Sort, Spatial, Storage, Suggestions and TermVector; Spatial is null; Analyzer and Suggestions are passed through unchanged |
| `IndexFields.StorageSerialisation` | src/Database/Indexes/IndexFieldOptions.ts:29 | Storage is null iff storage is exactly null, 'Yes' iff it is true, and 'No' iff it is false or undefined |
| `IndexFields.OmittedStorageIsNo` | src/Database/Indexes/IndexFieldOptions.ts:14-29 | leaving the storage argument out serialises as 'No', not null |
| `IndexFields.EnumSerialisation` | src/Database/Indexes/IndexFieldOptions.ts:26-28 | Indexing, Sort and TermVector are null iff the field is falsy (null, undefined or empty), and otherwise the field's string unchanged |
| `IndexFields.ConstructorArgumentOrder` | src/Database/Indexes/IndexFieldOptions.ts:14-22 | the fourth constructor argument lands under Suggestions and the fifth under TermVector |
| `IndexFields.ToJsonCharacterised` | src/Database/Indexes/IndexFieldOptions.ts:25-40 | two option sets serialise to equal records if and only if they agree on analyzer and suggestions, on each enum field up to falsiness, and on storage with false and undefined identified |
| `ApiKeyAuth.Split` | src/Database/Auth/ApiKeyAuthenticator.ts:32 | `split` gives one more piece than the separator has occurrences |
| `ApiKeyAuth.SplitJoin` | src/Database/Auth/ApiKeyAuthenticator.ts:32 | splitting on a separator loses nothing (joining the pieces gives the string back) and no piece contains the separator |
| `ApiKeyAuth.SplitApiKey` | src/Database/Auth/ApiKeyAuthenticator.ts:32 | the secret is undefined iff the key has no '/'; neither the name nor the secret contains '/' |
| `ApiKeyAuth.SplitApiKeyCharacterised` | src/Database/Auth/ApiKeyAuthenticator.ts:32 | the name is the text before the first '/'; the secret is present iff the key contains '/', and is then the text up to the next '/' or the end; whatever follows a second '/' is dropped |
| `ApiKeyAuth.PaddingLength` | src/Database/Auth/ApiKeyAuthenticator.ts:125 | the padding byte count lies in 1..64 and the secret's length plus it is a multiple of 64 |
| `ApiKeyAuth.SecretPadding` | src/Database/Auth/ApiKeyAuthenticator.ts:122-125 | the padding is computed iff a secret is present, and lies in 1..64 with the padded length a multiple of 64; a key without '/' makes the length read throw |
| `ApiKeyAuth.PublicKeyFromReplyAsWritten` | src/Database/Auth/ApiKeyAuthenticator.ts:101-119 | as written, every 200 reply fails with the decoding error, and a key is obtained only from a non-200 reply with an object body |
| `ApiKeyAuth.PublicKeyFromReply` | src/Database/Auth/ApiKeyAuthenticator.ts:101-119 | corrected: a key is obtained iff the reply is a 200 with an object body, a truthy PublicKey and a successful decode, and it is the decoded key; any other non-200 reply is the bad-public-key-response error |
| `ApiKeyAuth.OkReplyDiscrepancy` | src/Database/Auth/ApiKeyAuthenticator.ts:104-112 | a 200 reply with a decodable PublicKey fails as written and yields the key when corrected |
| `ApiKeyAuth.FinishAuthentication` | src/Database/Auth/ApiKeyAuthenticator.ts:72-86 | an accepted body with a truthy Error rejects with an AuthenticationException carrying that text; success needs no Error and yields the decrypted token |
| `ApiKeyAuth.TryAuthenticate` | src/Database/Auth/ApiKeyAuthenticator.ts:34-69 | the handshake consumes no more replies than either script holds, so the 417 retry is bounded by the script |
| `ApiKeyAuth.AuthenticateSpec` | src/Database/Auth/ApiKeyAuthenticator.ts:24-32 | an empty or absent key rejects with 'Api key is empty', uses no reply (no request) and leaves the cache unchanged |
| `ApiKeyAuth.ExpectationFailedRestarts` | src/Database/Auth/ApiKeyAuthenticator.ts:34-57 | whenever a key is obtained, cached or freshly fetched, a 417 drops the key for that URL and the whole attempt restarts on the rest of both scripts, having used one validation reply and one key reply iff the key was fetched |
| `ApiKeyAuth.UnacceptedStatusRejected` | src/Database/Auth/ApiKeyAuthenticator.ts:34-63 | whenever a key is obtained, a validation request that rejects, or a status neither 417 nor one of 403, 200 and 500, rejects with 'Bad response from server'; the cache then holds the obtained key (unchanged for a cached URL, the fetched key stored otherwise), one key reply was used iff the key was fetched, and one validation reply |
| `ApiKeyAuth.AcceptedStatusFinishes` | src/Database/Auth/ApiKeyAuthenticator.ts:34-76 | whenever a key is obtained, a 403, 200 or 500 ends the handshake with the body handling, so a truthy Error rejects with its own text; the cache and the replies used are as for a rejected status |
| `ApiKeyAuth.KeyUnavailableRejected` | src/Database/Auth/ApiKeyAuthenticator.ts:34-35 | when no key is cached and the public-key reply carries none, the handshake rejects before any validation request and leaves the cache unchanged |
| `ApiKeyAuth.OnlyThisUrlCached` | src/Database/Auth/ApiKeyAuthenticator.ts:53-56 | a handshake, retries included, changes the public-key cache at its own URL only |
| `ApiKeyAuth.SuccessLeavesKeyCached` | src/Database/Auth/ApiKeyAuthenticator.ts:111-113 | a handshake that succeeds leaves a public key cached for its URL |
| `ApiKeyAuth.ApiKeyAuthenticator.constructor` | src/Database/Auth/ApiKeyAuthenticator.ts:19-22 | the public-key cache starts empty |
| `ApiKeyAuth.ApiKeyAuthenticator.GetServerPublicKey` | src/Database/Auth/ApiKeyAuthenticator.ts:89-120 | a cached URL returns its key with no request and no change; otherwise a request is made, and a key obtained from it is stored under that URL, while a failure leaves the cache unchanged; the reply is handled by the corrected `ApiKeyAuth.PublicKeyFromReply` (see Findings), since as written a 200 reply never yields a key |
| `ApiKeyAuth.ApiKeyAuthenticator.Authenticate` | src/Database/Auth/ApiKeyAuthenticator.ts:24-87 | the result and the new cache are exactly those of `AuthenticateSpec` on the old cache and the same scripts |

## Left out

- Timers are not modelled: the 100 ms polling of `awaitForTopology` and the five-minute reschedule of `updateReplicationTopology`. `AfterTopologyWait` returns `StillWaiting` where the code would poll again. `topologyUpdatesStarted` only counts the calls that start a topology update.
- The concurrency of `BluebirdPromise.some(..., 1)` and of `Lock.acquire` is not modelled. One cycle's completed fetches are given as a sequence in completion order. The latch is set after the last of them; the code sets it once the first success has been reported.
- `updateFailingNodeStatus` is not modelled. `fallbackToNextNode` calls it at once (`RequestExecutor.ts:190`); it sends a probe request built by `prepareCommand` (:239), which is not in `sentRequests`, and writes a misspelled `reponseTime` field. Its `undefined` result is then passed to `setTimeout`, which Node.js rejects with a TypeError for a non-function callback. `Requests.RequestExecutor.FallbackToNextNode` assumes that line returns and goes on to the next node.
- `Requests.ParseResult`, and likewise `Requests.OutcomeAt` for `BuildThrows`: an exception thrown by the command's `createRequest`, `toRequestOptions` or `setResponse` keeps only its message, as `PreparationException` or `CommandException`. In the code the same exception object is rejected (:127-128, :175-176), and `execute` tests it with `instanceof TopologyNodeDownException` (:85). The model therefore assumes a command never throws a `TopologyNodeDownException`. `NodeDownIffNoResponse` and the failover rule of `AfterTopologyWait` hold under that assumption.
- `Requests.RequestExecutor.CompleteTopologyUpdate` takes the selector's topology etag as constant within a cycle. In the code, TOPOLOGY_UPDATED listeners run synchronously between fetches (:217) and could change the selector's etag before the next request is prepared.
- `isFailedWithNode` belongs to `RavenCommand`, which is not part of this model. It is taken to be membership in the set `addFailedNode` grows.
- `DateUtil` timestamps are not modelled. The measured round-trip time is an input.
- `StringUtil.format` is not modelled, since its implementation is not part of this model. `AuthorizationException` keeps only the node's url, not the formatted message.
- `NodeSelector`, `Topology`, `GetTopologyCommand` and `StatusCodes` are not part of this model. `StatusCodes.isNotFound`, `isForbidden`, `isOk` and `isExpectationFailed` are taken as equality with 404, 403, 200 and 417.
- `command.createRequest` / `toRequestOptions` and `setResponse` are functions supplied with the command. Whether the value passed is a `RavenCommand` is modelled as null versus non-null.
- The `in` test for the Refresh-Topology header is a plain key test. No header-name case folding is modelled.
- The sodium `Box`, `Key.Box` and `Random`, and `atob`/`btoa`, are foreign. Their outcomes are carried by the scripted replies. Nothing is claimed about the padded secret's character length, because the random bytes' `toString()` does not preserve length.
- The request library's own choice of which statuses reject is not modelled. A reply is given either as "rejected" or as "resolved with a response".
- The `headers` argument of `authenticate` and the request bodies and URLs are not modelled. This includes the public-key URL, whose `StringUtil.format` call has no argument.
- `TypeUtil.isObject` is not part of this model. It is taken to hold exactly of object bodies.
- `ApiKeyAuth.ApiKeyAuthenticator.constructor`: the class declares `_serverPublicKeys` without initialising it. The model starts the cache as an empty map rather than modelling the TypeError the first lookup would raise.
- The as-written public-key reply handling is modelled and compared with the corrected one (see Findings), but only the corrected one is used by the handshake and the class.
- `ApiKeyAuth.PublicKeyDecodeException` does not carry the engine's message text.
- String lengths are counted in characters of `seq<char>`, not in JavaScript UTF-16 code units.
- `toJson` leaves the object unchanged, and two calls give equal records. In this model that holds because `IndexFields.ToJson` is a function of a value, so there is no separate statement of it.
- `gulpfile.js` (build tooling) and `src/Documents/Session/Query/Tokens/GroupByToken.ts` (a wrapper over code not shown) are not part of this model.

## Findings

| source | as written | input that shows it | evidently intended | confidence | as-written member | corrected member |
|---|---|---|---|---|---|---|
| src/Database/Auth/ApiKeyAuthenticator.ts:104-112 | the rejection test is a conjunction that stops at "status is not OK" for a 200 reply, before the local `body` is assigned; the decoding then reads PublicKey of undefined and rejects with "Error decoding public key" | a 200 reply whose body is an object with a non-empty, decodable PublicKey | a 200 reply with an object body and a truthy PublicKey is decoded and cached; anything else is the bad-response error | high; not executed | `ApiKeyAuth.PublicKeyFromReplyAsWritten`, `ApiKeyAuth.OkReplyDiscrepancy` | `ApiKeyAuth.PublicKeyFromReply` |
