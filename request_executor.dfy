/** The request-dispatch core of src/Http/Request/RequestExecutor.ts: the fixed
    executor headers, how a command's request is prepared, how the outcome of
    one dispatch is classified, the one-hop failover, and the one-shot latch
    that the first successful topology fetch sets.

    The network is an input: each dispatch is given an `Attempt`, the
    round-trip time the clock measured and either no response or a response.
    `NodeSelector`, `RavenCommand` and `ServerNode` are not part of this model
    and appear only with the fields the executor touches. */
module Requests {
  import opened Js
  import opened StatusCodes

  /** The statuses `executeCommand` calls server errors. */
  const ServerErrorStatuses: set<int> := {RequestTimeout, BadGateway, GatewayTimeout, ServiceUnavailable}

  const ClientVersion := "4.0.0.0"
  const AuthorizationHeader := "Raven-Authorization"
  const TopologyEtagHeader := "Topology-Etag"
  const RefreshTopologyHeader := "Refresh-Topology"

  const NotAValidCommandMessage := "Not a valid command"
  const AllNodesDownMessage := "Tried all nodes in the cluster but failed getting a response"

  function NodeDownMessage(url: string): string {
    "Node " + url + " is down"
  }

  /** The rejections an execution can end with. */
  datatype Error =
    | InvalidOperationException(message: string)
      /** Thrown by the command while it builds its request, and passed on. */
    | PreparationException(message: string)
      /** Preparing a request for an absent node reads a field of undefined. */
    | MissingNodeTypeError
    | TopologyNodeDownException(message: string)
      /** Its message is formatted from the node; only the node's url is kept. */
    | AuthorizationException(nodeUrl: string)
    | AllTopologyNodesDownException(message: string)
      /** Thrown by the command's `setResponse`, and passed on unchanged. */
    | CommandException(message: string)

  predicate IsNodeDown(r: Result<JsValue, Error>) {
    r.Failure? && r.error.TopologyNodeDownException?
  }

  datatype Response = Response(status: int, headers: map<string, string>, body: JsValue)

  /** What the request library hands back: a rejection without a response
      (the node could not be reached), or a response of any status. */
  datatype Reply = NoResponse | Responded(response: Response)

  /** One request on the wire: the measured round-trip time and the reply. */
  datatype Attempt = Attempt(elapsed: int, reply: Reply)

  /** What `createRequest` followed by `toRequestOptions` gives: the command's
      own headers, or an exception. */
  datatype RequestBuild = Built(headers: map<string, string>) | BuildThrows(message: string)

  /** What `setResponse` does with a response: a value, or an exception. */
  datatype ParseOutcome = Parsed(value: JsValue) | ParseThrows(message: string)

  /** The classification of one dispatch, and whether it starts a topology update. */
  datatype Dispatch = Dispatch(result: Result<JsValue, Error>, refreshTopology: bool)

  /** A request put on the wire: the node it went to and its headers. */
  datatype SentRequest = SentRequest(nodeUrl: string, headers: map<string, string>)

  /** The events the executor emits. */
  datatype Event =
    | RequestFailed(node: ServerNode)
    | TopologyUpdated(topologyJson: JsValue, serverNodeUrl: string, requestedDatabase: string, forceUpdate: bool)

  /** What `execute` has come to: still polling for the first topology (with
      the node it read before it started waiting), or settled. */
  datatype ExecResult = StillWaiting(chosen: ServerNode?) | Settled(result: Result<JsValue, Error>)

  /** The fetch of one initial URL's topology, in the order the fetches complete. */
  datatype TopologyFetch = TopologyFetch(url: string, attempt: Attempt)

  // ---------------------------------------------------------------------------
  // Headers

  /** The header literal of the constructor. */
  function ExecutorHeaders(apiKey: JsOpt<string>): (h: map<string, string>)
    ensures h.Keys == {"Accept", "Has-Api-key", "Raven-Client-Version"}
    ensures h["Accept"] == "application/json" && h["Raven-Client-Version"] == ClientVersion
    ensures h["Has-Api-key"] == "false" <==> apiKey.IsNone()
    ensures h["Has-Api-key"] == "true" <==> apiKey.Val?
  {
    map["Accept" := "application/json",
        "Has-Api-key" := if apiKey.IsNone() then "false" else "true",
        "Raven-Client-Version" := ClientVersion]
  }

  /** The headers of a prepared request: the command's, overwritten by the
      executor's (`Object.assign`), then the node's token and, in multi-node
      mode, the selector's topology etag. */
  function PrepareHeaders(commandHeaders: map<string, string>, executorHeaders: map<string, string>,
                          token: JsOpt<string>, topologyUpdates: bool, etag: string): map<string, string>
  {
    var merged := commandHeaders + executorHeaders;
    var withToken := if token.Val? then merged[AuthorizationHeader := token.v] else merged;
    if topologyUpdates then withToken[TopologyEtagHeader := etag] else withToken
  }

  /** The prepared header set is the command's and the executor's, plus the
      authorization header when a token is present and the etag header in
      multi-node mode; the token and the etag are the values of their headers,
      executor headers override command headers, and the other command headers
      are kept. */
  lemma PreparedHeaders(commandHeaders: map<string, string>, executorHeaders: map<string, string>,
                        token: JsOpt<string>, topologyUpdates: bool, etag: string)
    ensures var h := PrepareHeaders(commandHeaders, executorHeaders, token, topologyUpdates, etag);
      && h.Keys == commandHeaders.Keys + executorHeaders.Keys
                   + (if token.Val? then {AuthorizationHeader} else {})
                   + (if topologyUpdates then {TopologyEtagHeader} else {})
      && (token.Val? ==> h[AuthorizationHeader] == token.v)
      && (topologyUpdates ==> h[TopologyEtagHeader] == etag)
      && (forall k :: k in executorHeaders && k != AuthorizationHeader && k != TopologyEtagHeader
                      ==> h[k] == executorHeaders[k])
      && (forall k :: k in commandHeaders && k !in executorHeaders
                      && (k == AuthorizationHeader ==> token.IsNone())
                      && (k == TopologyEtagHeader ==> !topologyUpdates)
                      ==> h[k] == commandHeaders[k])
  {
  }

  /** Executor headers win over a command header of the same name, and the
      token is attached in single- and multi-node mode alike. */
  lemma ExecutorHeadersWin(commandHeaders: map<string, string>, apiKey: JsOpt<string>,
                           token: JsOpt<string>, topologyUpdates: bool, etag: string)
    ensures var h := PrepareHeaders(commandHeaders, ExecutorHeaders(apiKey), token, topologyUpdates, etag);
      && h["Accept"] == "application/json"
      && h["Raven-Client-Version"] == ClientVersion
      && (h["Has-Api-key"] == "false" <==> apiKey.IsNone())
      && (token.Val? ==> h[AuthorizationHeader] == token.v)
  {
    var e := ExecutorHeaders(apiKey);
    assert "Accept" in e && "Raven-Client-Version" in e && "Has-Api-key" in e;
  }

  /** The etag header carries the selector's etag if and only if topology
      updates are on, unless the command set that header itself. */
  lemma TopologyEtagOnlyInMultiNodeMode(commandHeaders: map<string, string>, apiKey: JsOpt<string>,
                                        token: JsOpt<string>, topologyUpdates: bool, etag: string)
    requires TopologyEtagHeader !in commandHeaders
    ensures var h := PrepareHeaders(commandHeaders, ExecutorHeaders(apiKey), token, topologyUpdates, etag);
      (TopologyEtagHeader in h && h[TopologyEtagHeader] == etag) <==> topologyUpdates
  {
  }

  // ---------------------------------------------------------------------------
  // Classification of one dispatch

  /** The response-handling chain of `executeCommand`, as written. A rejection
      without a response is node-down. A server-error or not-found response
      loses its body and is parsed; otherwise 403 is an authorization error.
      The node-down rejection inside the `else` tests `isServerError`, which
      that branch has just ruled out, so it is never taken. */
  function Classify(topologyUpdates: bool, nodeUrl: string, reply: Reply,
                    setResponse: Response -> ParseOutcome): (d: Dispatch)
    ensures reply.NoResponse? ==> d == Dispatch(Failure(TopologyNodeDownException(NodeDownMessage(nodeUrl))), false)
    ensures reply.Responded? && reply.response.status == Forbidden ==>
      d == Dispatch(Failure(AuthorizationException(nodeUrl)), false)
    ensures reply.Responded? && reply.response.status != Forbidden ==>
      var r := reply.response;
      && d.result == ParseResult(setResponse(Handed(r)))
      && (d.refreshTopology <==> topologyUpdates && RefreshTopologyHeader in r.headers)
  {
    match reply
    case NoResponse => Dispatch(Failure(TopologyNodeDownException(NodeDownMessage(nodeUrl))), false)
    case Responded(response) =>
      var code := response.status;
      var isServerError := code in ServerErrorStatuses;
      if !(isServerError || code == NotFound) && isServerError then
        Dispatch(Failure(TopologyNodeDownException(NodeDownMessage(nodeUrl))), false)
      else if !(isServerError || code == NotFound) && code == Forbidden then
        Dispatch(Failure(AuthorizationException(nodeUrl)), false)
      else
        var refresh := topologyUpdates && RefreshTopologyHeader in response.headers;
        Dispatch(ParseResult(setResponse(Handed(response))), refresh)
  }

  /** The response `setResponse` is given: a server-error or not-found
      response without its body, any other response as it is. */
  function Handed(response: Response): Response {
    if response.status in ServerErrorStatuses || response.status == NotFound then response.(body := JsUndefined)
    else response
  }

  /** The value `setResponse` returns, or its exception unchanged. */
  function ParseResult(p: ParseOutcome): (r: Result<JsValue, Error>)
    ensures r.Success? <==> p.Parsed?
    ensures p.Parsed? ==> r == Success(p.value)
    ensures p.ParseThrows? ==> r == Failure(CommandException(p.message))
  {
    match p
    case Parsed(v) => Success(v)
    case ParseThrows(m) => Failure(CommandException(m))
  }

  /** Whatever its status, a response never turns into node-down: only a
      rejection without a response does. */
  lemma NodeDownIffNoResponse(topologyUpdates: bool, nodeUrl: string, reply: Reply,
                              setResponse: Response -> ParseOutcome)
    ensures IsNodeDown(Classify(topologyUpdates, nodeUrl, reply, setResponse).result) <==> reply.NoResponse?
  {
  }

  /** A 408, 502, 503 or 504 response is handed to `setResponse` without its
      body, exactly like a 404. */
  lemma ServerErrorIsParsedWithoutBody(topologyUpdates: bool, nodeUrl: string, response: Response,
                                       setResponse: Response -> ParseOutcome)
    requires response.status in ServerErrorStatuses
    ensures var d := Classify(topologyUpdates, nodeUrl, Responded(response), setResponse);
      && !IsNodeDown(d.result)
      && d.result == ParseResult(setResponse(response.(body := JsUndefined)))
  {
  }

  /** A 403 response is never handed to `setResponse`: its outcome is the same
      whatever the command would have parsed, and it starts no topology update. */
  lemma ForbiddenSkipsParser(topologyUpdates: bool, nodeUrl: string, response: Response,
                             parse1: Response -> ParseOutcome, parse2: Response -> ParseOutcome)
    requires response.status == Forbidden
    ensures Classify(topologyUpdates, nodeUrl, Responded(response), parse1)
            == Classify(topologyUpdates, nodeUrl, Responded(response), parse2)
            == Dispatch(Failure(AuthorizationException(nodeUrl)), false)
  {
  }

  /** In single-node mode no response starts a topology update. */
  lemma NoRefreshInSingleNodeMode(nodeUrl: string, reply: Reply, setResponse: Response -> ParseOutcome)
    ensures !Classify(false, nodeUrl, reply, setResponse).refreshTopology
  {
  }

  // ---------------------------------------------------------------------------
  // Collaborators

  /** The node fields the executor reads and writes. */
  class ServerNode {
    const url: string
    const database: string
    var currentToken: JsOpt<string>
    /** The last measured round-trip time; None until one is measured. */
    var responseTime: Option<int>

    /** A node with no token and no measurement yet. */
    constructor (url: string, database: string)
      ensures this.url == url && this.database == database
      ensures currentToken == Undefined && responseTime == None
    {
      this.url := url;
      this.database := database;
      currentToken := Undefined;
      responseTime := None;
    }
  }

  /** The selector's current choice of node and its topology etag. */
  class NodeSelector {
    var currentNode: ServerNode?
    var topologyEtag: string

    constructor (currentNode: ServerNode?, topologyEtag: string)
      ensures this.currentNode == currentNode && this.topologyEtag == topologyEtag
    {
      this.currentNode := currentNode;
      this.topologyEtag := topologyEtag;
    }
  }

  /** A command: how it builds a request for a node (given the node's url and
      database), how it parses a response, and the nodes it has failed on. */
  class RavenCommand {
    const buildRequest: (string, string) -> RequestBuild
    const setResponse: Response -> ParseOutcome
    var failedNodes: set<ServerNode>

    constructor (buildRequest: (string, string) -> RequestBuild, setResponse: Response -> ParseOutcome)
      ensures this.buildRequest == buildRequest && this.setResponse == setResponse
      ensures failedNodes == {}
    {
      this.buildRequest := buildRequest;
      this.setResponse := setResponse;
      failedNodes := {};
    }

    method AddFailedNode(node: ServerNode)
      modifies this
      ensures failedNodes == old(failedNodes) + {node}
    {
      failedNodes := failedNodes + {node};
    }
  }

  // ---------------------------------------------------------------------------
  // One `executeCommand`

  /** Whether `executeCommand` gets as far as putting a request on the wire. */
  predicate Sends(command: RavenCommand?, node: ServerNode?) {
    command != null && node != null && command.buildRequest(node.url, node.database).Built?
  }

  /** What one `executeCommand` of `command` on `node` comes to. A value that
      is not a command is rejected first; then preparation may fail; only
      then is the reply classified. */
  function AttemptOutcome(topologyUpdates: bool, command: RavenCommand?, node: ServerNode?, reply: Reply)
    : (d: Dispatch)
    ensures command == null ==> d == Dispatch(Failure(InvalidOperationException(NotAValidCommandMessage)), false)
    ensures !Sends(command, node) ==> d.result.Failure? && !d.refreshTopology && !IsNodeDown(d.result)
    ensures Sends(command, node) ==> d == Classify(topologyUpdates, node.url, reply, command.setResponse)
  {
    if command == null then Dispatch(Failure(InvalidOperationException(NotAValidCommandMessage)), false)
    else if node == null then Dispatch(Failure(MissingNodeTypeError), false)
    else OutcomeAt(topologyUpdates, command, node.url, node.database, reply)
  }

  /** `AttemptOutcome` for a command and a node given by its url and database. */
  function OutcomeAt(topologyUpdates: bool, command: RavenCommand, url: string, database: string, reply: Reply)
    : (d: Dispatch)
    ensures command.buildRequest(url, database).BuildThrows? ==>
      d == Dispatch(Failure(PreparationException(command.buildRequest(url, database).message)), false)
    ensures command.buildRequest(url, database).Built? ==> d == Classify(topologyUpdates, url, reply, command.setResponse)
  {
    match command.buildRequest(url, database)
    case BuildThrows(m) => Dispatch(Failure(PreparationException(m)), false)
    case Built(_) => Classify(topologyUpdates, url, reply, command.setResponse)
  }

  /** A node-down outcome needs a command, a node and a rejection without a response. */
  lemma NodeDownNeedsNoResponse(topologyUpdates: bool, command: RavenCommand?, node: ServerNode?, reply: Reply)
    ensures IsNodeDown(AttemptOutcome(topologyUpdates, command, node, reply).result) <==>
      Sends(command, node) && reply.NoResponse?
  {
    if Sends(command, node) {
      NodeDownIffNoResponse(topologyUpdates, node.url, reply, command.setResponse);
    }
  }

  // ---------------------------------------------------------------------------
  // One topology-update cycle

  /** What completed fetches do: the events they emit, the requests they send,
      the topology updates they start, and whether any succeeded. */
  datatype CycleEffect = CycleEffect(events: seq<Event>, requests: seq<SentRequest>, refreshes: nat, succeeded: bool)

  /** The effect of one fetch of `url`'s topology: an `executeCommand` of the
      topology command on a fresh node for `url`, which carries no token, and
      the TOPOLOGY_UPDATED event when it succeeds. */
  function FetchEffect(topologyUpdates: bool, getTopology: RavenCommand, url: string, database: string,
                       executorHeaders: map<string, string>, etag: string, reply: Reply): (e: CycleEffect)
    ensures |e.events| <= 1 && |e.requests| <= 1 && e.refreshes <= 1
    ensures e.succeeded <==> e.events != []
    ensures forall ev :: ev in e.events ==>
      ev.TopologyUpdated? && ev.serverNodeUrl == url && ev.requestedDatabase == database && !ev.forceUpdate
  {
    var d := OutcomeAt(topologyUpdates, getTopology, url, database, reply);
    var build := getTopology.buildRequest(url, database);
    CycleEffect(
      if d.result.Success? then [TopologyUpdated(d.result.value, url, database, false)] else [],
      if build.Built? then [SentRequest(url, PrepareHeaders(build.headers, executorHeaders, Undefined, topologyUpdates, etag))]
      else [],
      if d.refreshTopology then 1 else 0,
      d.result.Success?)
  }

  /** When a fetch succeeds: its request was built and got a response other
      than 403, which `setResponse` parsed; the event then carries the parsed
      topology. A request is sent exactly when it was built, without a token,
      and a topology update starts exactly when the response asks for one. */
  lemma FetchSucceeds(topologyUpdates: bool, getTopology: RavenCommand, url: string, database: string,
                      executorHeaders: map<string, string>, etag: string, reply: Reply)
    ensures var e := FetchEffect(topologyUpdates, getTopology, url, database, executorHeaders, etag, reply);
      var build := getTopology.buildRequest(url, database);
      && (e.succeeded <==>
            && build.Built? && reply.Responded? && reply.response.status != Forbidden
            && getTopology.setResponse(Handed(reply.response)).Parsed?)
      && (e.succeeded ==>
            e.events == [TopologyUpdated(getTopology.setResponse(Handed(reply.response)).value, url, database, false)])
      && (e.requests != [] <==> build.Built?)
      && (build.Built? ==>
            e.requests == [SentRequest(url, PrepareHeaders(build.headers, executorHeaders, Undefined, topologyUpdates, etag))])
      && (e.refreshes == 1 <==>
            build.Built? && reply.Responded? && reply.response.status != Forbidden
            && topologyUpdates && RefreshTopologyHeader in reply.response.headers)
  {
  }

  /** The effect of `before` followed by that of `after`. */
  function Then(before: CycleEffect, after: CycleEffect): CycleEffect {
    CycleEffect(before.events + after.events, before.requests + after.requests,
                before.refreshes + after.refreshes, before.succeeded || after.succeeded)
  }

  /** The effects in `effects`, one after the other. */
  function Combined(effects: seq<CycleEffect>): CycleEffect {
    if effects == [] then CycleEffect([], [], 0, false)
    else Then(Combined(effects[..|effects| - 1]), effects[|effects| - 1])
  }

  /** The effect of each fetch in `fetches`, in completion order. */
  function FetchEffects(topologyUpdates: bool, getTopology: RavenCommand, database: string,
                        executorHeaders: map<string, string>, etag: string, fetches: seq<TopologyFetch>)
    : seq<CycleEffect>
  {
    seq(|fetches|, i requires 0 <= i < |fetches| =>
      FetchEffect(topologyUpdates, getTopology, fetches[i].url, database, executorHeaders, etag, fetches[i].attempt.reply))
  }

  /** The effect of the fetches in `fetches`, in completion order. */
  function CycleEffectOf(topologyUpdates: bool, getTopology: RavenCommand, database: string,
                         executorHeaders: map<string, string>, etag: string, fetches: seq<TopologyFetch>)
    : CycleEffect
  {
    Combined(FetchEffects(topologyUpdates, getTopology, database, executorHeaders, etag, fetches))
  }

  /** One more effect extends the combination by that effect. */
  lemma CombinedStep(effects: seq<CycleEffect>, k: nat)
    requires k < |effects|
    ensures Combined(effects[..k + 1]) == Then(Combined(effects[..k]), effects[k])
  {
    assert effects[..k + 1][..k] == effects[..k];
  }

  /** Every event of a cycle is a topology update from one of its URLs, for
      the initial database, with `forceUpdate` false; a cycle succeeded
      exactly when it emitted one; and each fetch emits at most one event,
      sends at most one request and starts at most one topology update. */
  lemma {:induction false} CycleEvents(topologyUpdates: bool, getTopology: RavenCommand, urls: seq<string>,
                                       database: string, executorHeaders: map<string, string>, etag: string,
                                       fetches: seq<TopologyFetch>)
    requires forall k :: 0 <= k < |fetches| ==> fetches[k].url in urls
    ensures var c := CycleEffectOf(topologyUpdates, getTopology, database, executorHeaders, etag, fetches);
      && (forall e :: e in c.events ==>
            e.TopologyUpdated? && e.serverNodeUrl in urls && e.requestedDatabase == database && !e.forceUpdate)
      && (c.succeeded <==> c.events != [])
      && |c.events| <= |fetches| && |c.requests| <= |fetches| && c.refreshes <= |fetches|
  {
    if fetches != [] {
      var n := |fetches| - 1;
      var effects := FetchEffects(topologyUpdates, getTopology, database, executorHeaders, etag, fetches);
      assert effects[..n] == FetchEffects(topologyUpdates, getTopology, database, executorHeaders, etag, fetches[..n]);
      CycleEvents(topologyUpdates, getTopology, urls, database, executorHeaders, etag, fetches[..n]);
      assert fetches[n].url in urls;
    }
  }

  // ---------------------------------------------------------------------------
  // The executor

  class RequestExecutor {
    const headers: map<string, string>
    const apiKey: JsOpt<string>
    const initialUrls: seq<string>
    const initialDatabase: string
    const disableTopologyUpdates: bool
    const nodeSelector: NodeSelector
    /** The one-shot latch `execute` waits for. */
    var firstTopologyUpdateCompleted: bool
    /** How many times `updateReplicationTopology` has been called. */
    var topologyUpdatesStarted: nat
    /** The requests `executeCommand` sends, in order. */
    var sentRequests: seq<SentRequest>
    /** The events emitted, in order. */
    var events: seq<Event>

    /** The constructor. It starts the first topology update; topology updates
        stay off for good when fewer than two URLs are given. */
    constructor (urls: seq<string>, database: string, apiKey: JsOpt<string>, nodeSelector: NodeSelector)
      ensures headers == ExecutorHeaders(apiKey) && disableTopologyUpdates == (|urls| < 2)
      ensures this.apiKey == apiKey && initialUrls == urls && initialDatabase == database
      ensures this.nodeSelector == nodeSelector
      ensures !firstTopologyUpdateCompleted && topologyUpdatesStarted == 1
      ensures sentRequests == [] && events == []
    {
      headers := ExecutorHeaders(apiKey);
      this.apiKey := apiKey;
      initialUrls := urls;
      initialDatabase := database;
      disableTopologyUpdates := |urls| < 2;
      this.nodeSelector := nodeSelector;
      firstTopologyUpdateCompleted := false;
      sentRequests := [];
      events := [];
      topologyUpdatesStarted := 1;
    }

    /** The request `prepareCommand` builds for `command` on `node`. */
    function RequestFor(command: RavenCommand, node: ServerNode): (r: SentRequest)
      requires Sends(command, node)
      reads node, nodeSelector
      ensures r.nodeUrl == node.url
      ensures forall k :: k in headers && k != AuthorizationHeader && k != TopologyEtagHeader ==>
        k in r.headers && r.headers[k] == headers[k]
      ensures node.currentToken.Val? ==>
        AuthorizationHeader in r.headers && r.headers[AuthorizationHeader] == node.currentToken.v
      ensures !disableTopologyUpdates ==>
        TopologyEtagHeader in r.headers && r.headers[TopologyEtagHeader] == nodeSelector.topologyEtag
    {
      PreparedHeaders(command.buildRequest(node.url, node.database).headers, headers,
                      node.currentToken, !disableTopologyUpdates, nodeSelector.topologyEtag);
      SentRequest(node.url, PrepareHeaders(command.buildRequest(node.url, node.database).headers, headers,
                                           node.currentToken, !disableTopologyUpdates, nodeSelector.topologyEtag))
    }

    /** `executeCommand(command, node)`: one attempt. The node's response
        time is written whenever a request was sent, whatever its outcome. */
    method ExecuteCommand(command: RavenCommand?, node: ServerNode?, attempt: Attempt)
      returns (r: Result<JsValue, Error>)
      modifies this`sentRequests, this`topologyUpdatesStarted, node
      ensures var d := AttemptOutcome(!disableTopologyUpdates, command, node, attempt.reply);
        && r == d.result
        && topologyUpdatesStarted == old(topologyUpdatesStarted) + (if d.refreshTopology then 1 else 0)
      ensures sentRequests == old(sentRequests) + (if Sends(command, node) then [old(RequestFor(command, node))] else [])
      ensures node != null ==> node.currentToken == old(node.currentToken)
      ensures node != null ==> node.responseTime == if Sends(command, node) then Some(attempt.elapsed) else old(node.responseTime)
    {
      if command == null {
        return Failure(InvalidOperationException(NotAValidCommandMessage));
      }
      if node == null {
        return Failure(MissingNodeTypeError);
      }
      var build := command.buildRequest(node.url, node.database);
      if build.BuildThrows? {
        return Failure(PreparationException(build.message));
      }
      var prepared := PrepareHeaders(build.headers, headers, node.currentToken, !disableTopologyUpdates,
                                     nodeSelector.topologyEtag);
      sentRequests := sentRequests + [SentRequest(node.url, prepared)];
      node.responseTime := Some(attempt.elapsed);
      var d := Classify(!disableTopologyUpdates, node.url, attempt.reply, command.setResponse);
      if d.refreshTopology {
        topologyUpdatesStarted := topologyUpdatesStarted + 1;
      }
      r := d.result;
    }

    /** `fallbackToNextNode(command, failedNode)`: record the failure, emit
        REQUEST_FAILED, and make exactly one more attempt on `next`, the node
        the selector reports afterwards, unless it is absent or already failed. */
    method FallbackToNextNode(command: RavenCommand, failedNode: ServerNode, next: ServerNode?, attempt: Attempt)
      returns (r: Result<JsValue, Error>)
      modifies command, this`events, this`sentRequests, this`topologyUpdatesStarted, next
      ensures command.failedNodes == old(command.failedNodes) + {failedNode}
      ensures events == old(events) + [RequestFailed(failedNode)]
      ensures next == null || next in command.failedNodes ==>
        && r == Failure(AllTopologyNodesDownException(AllNodesDownMessage))
        && sentRequests == old(sentRequests) && topologyUpdatesStarted == old(topologyUpdatesStarted)
        && (next != null ==> next.responseTime == old(next.responseTime))
      ensures next != null && next !in command.failedNodes ==>
        var d := AttemptOutcome(!disableTopologyUpdates, command, next, attempt.reply);
        && r == d.result
        && topologyUpdatesStarted == old(topologyUpdatesStarted) + (if d.refreshTopology then 1 else 0)
        && sentRequests == old(sentRequests) + (if Sends(command, next) then [old(RequestFor(command, next))] else [])
        && next.responseTime == (if Sends(command, next) then Some(attempt.elapsed) else old(next.responseTime))
      ensures next != null ==> next.currentToken == old(next.currentToken)
    {
      command.AddFailedNode(failedNode);
      events := events + [RequestFailed(failedNode)];
      if next == null || next in command.failedNodes {
        return Failure(AllTopologyNodesDownException(AllNodesDownMessage));
      }
      r := ExecuteCommand(command, next, attempt);
    }

    /** The effect of `execute` once the node `chosen` has been read: see
        `AfterTopologyWait`. */
    twostate predicate ExecutionEffect(command: RavenCommand?, chosen: ServerNode?, first: Attempt,
                                       reselected: ServerNode?, second: Attempt, new r: ExecResult)
      reads this, command, chosen, reselected, nodeSelector
    {
      && (chosen != null ==> chosen.currentToken == old(chosen.currentToken))
      && (reselected != null ==> reselected.currentToken == old(reselected.currentToken))
      && (!old(firstTopologyUpdateCompleted) ==>
        && r == StillWaiting(chosen)
        && sentRequests == old(sentRequests) && events == old(events)
        && topologyUpdatesStarted == old(topologyUpdatesStarted)
        && (command != null ==> command.failedNodes == old(command.failedNodes))
        && (chosen != null ==> chosen.responseTime == old(chosen.responseTime))
        && (reselected != null ==> reselected.responseTime == old(reselected.responseTime)))
      && (old(firstTopologyUpdateCompleted) ==>
        var d1 := AttemptOutcome(!disableTopologyUpdates, command, chosen, first.reply);
        var sent1 := if Sends(command, chosen) then [old(RequestFor(command, chosen))] else [];
        && (chosen != null ==> chosen.responseTime == if Sends(command, chosen) then Some(first.elapsed)
                                                   else old(chosen.responseTime))
        && (!IsNodeDown(d1.result) ==>
              && (reselected != null && reselected != chosen ==> reselected.responseTime == old(reselected.responseTime))
              && r == Settled(d1.result)
              && events == old(events)
              && sentRequests == old(sentRequests) + sent1
              && topologyUpdatesStarted == old(topologyUpdatesStarted) + (if d1.refreshTopology then 1 else 0)
              && (command != null ==> command.failedNodes == old(command.failedNodes)))
        && (IsNodeDown(d1.result) ==>
              && command != null && chosen != null
              && command.failedNodes == old(command.failedNodes) + {chosen}
              && events == old(events) + [RequestFailed(chosen)]
              && (reselected == null || reselected in command.failedNodes ==>
                    && r == Settled(Failure(AllTopologyNodesDownException(AllNodesDownMessage)))
                    && (reselected != null && reselected != chosen ==>
                          reselected.responseTime == old(reselected.responseTime))
                    && sentRequests == old(sentRequests) + sent1
                    && topologyUpdatesStarted == old(topologyUpdatesStarted))
              && (reselected != null && reselected !in command.failedNodes ==>
                    var d2 := AttemptOutcome(!disableTopologyUpdates, command, reselected, second.reply);
                    && r == Settled(d2.result)
                    && sentRequests == old(sentRequests) + sent1
                       + (if Sends(command, reselected) then [old(RequestFor(command, reselected))] else [])
                    && topologyUpdatesStarted == old(topologyUpdatesStarted) + (if d2.refreshTopology then 1 else 0)
                    && reselected.responseTime == if Sends(command, reselected) then Some(second.elapsed)
                                                  else old(reselected.responseTime))))
    }

    /** `execute(command)`. The node is read from the selector before the
        wait for the first topology; the wait and what follows it are
        `AfterTopologyWait`. */
    method Execute(command: RavenCommand?, first: Attempt, reselected: ServerNode?, second: Attempt)
      returns (r: ExecResult)
      modifies command, this`events, this`sentRequests, this`topologyUpdatesStarted,
               nodeSelector.currentNode, reselected
      ensures ExecutionEffect(command, old(nodeSelector.currentNode), first, reselected, second, r)
    {
      var chosen := nodeSelector.currentNode;
      r := AfterTopologyWait(command, chosen, first, reselected, second);
    }

    /** What `execute` does once `awaitForTopology` checks the latch: keep
        waiting while it is unset; otherwise attempt `chosen`, and on
        node-down, and only then, fail over once to `reselected`, the node the
        selector reports after REQUEST_FAILED has been emitted. The outcome of
        the second attempt, node-down included, is the result. */
    method AfterTopologyWait(command: RavenCommand?, chosen: ServerNode?, first: Attempt,
                             reselected: ServerNode?, second: Attempt)
      returns (r: ExecResult)
      modifies command, this`events, this`sentRequests, this`topologyUpdatesStarted, chosen, reselected
      ensures ExecutionEffect(command, chosen, first, reselected, second, r)
    {
      if !firstTopologyUpdateCompleted {
        return StillWaiting(chosen);
      }
      var res := ExecuteCommand(command, chosen, first);
      if IsNodeDown(res) {
        NodeDownNeedsNoResponse(!disableTopologyUpdates, command, chosen, first.reply);
        var res2 := FallbackToNextNode(command, chosen, reselected, second);
        return Settled(res2);
      }
      return Settled(res);
    }

    /** One fetch of a topology cycle; see `FetchEffect`. */
    method FetchTopology(getTopology: RavenCommand, url: string, attempt: Attempt) returns (ok: bool)
      modifies this`events, this`sentRequests, this`topologyUpdatesStarted
      ensures var e := FetchEffect(!disableTopologyUpdates, getTopology, url, initialDatabase, headers,
                                   nodeSelector.topologyEtag, attempt.reply);
        && ok == e.succeeded
        && events == old(events) + e.events
        && sentRequests == old(sentRequests) + e.requests
        && topologyUpdatesStarted == old(topologyUpdatesStarted) + e.refreshes
    {
      var node := new ServerNode(url, initialDatabase);
      var res := ExecuteCommand(getTopology, node, attempt);
      ok := res.Success?;
      if ok {
        events := events + [TopologyUpdated(res.value, node.url, node.database, false)];
      }
    }

    /** The completion of one `updateReplicationTopology` cycle. Each fetch in
        `fetches` is an `executeCommand` of the topology command on a fresh
        node for its URL; each success emits TOPOLOGY_UPDATED; the latch is
        set once some fetch has succeeded, and is never reset. */
    method CompleteTopologyUpdate(getTopology: RavenCommand, fetches: seq<TopologyFetch>)
      requires forall k :: 0 <= k < |fetches| ==> fetches[k].url in initialUrls
      modifies this`events, this`sentRequests, this`topologyUpdatesStarted, this`firstTopologyUpdateCompleted
      ensures var c := CycleEffectOf(!disableTopologyUpdates, getTopology, initialDatabase, headers,
                                     nodeSelector.topologyEtag, fetches);
        && events == old(events) + c.events
        && sentRequests == old(sentRequests) + c.requests
        && topologyUpdatesStarted == old(topologyUpdatesStarted) + c.refreshes
        && firstTopologyUpdateCompleted == (old(firstTopologyUpdateCompleted) || c.succeeded)
    {
      var enabled, etag := !disableTopologyUpdates, nodeSelector.topologyEtag;
      ghost var effects := FetchEffects(enabled, getTopology, initialDatabase, headers, etag, fetches);
      var k := 0;
      var succeeded := false;
      ghost var c := Combined([]);
      while k < |fetches|
        invariant 0 <= k <= |fetches| && etag == nodeSelector.topologyEtag
        invariant c == Combined(effects[..k])
        invariant events == old(events) + c.events
        invariant sentRequests == old(sentRequests) + c.requests
        invariant topologyUpdatesStarted == old(topologyUpdatesStarted) + c.refreshes
        invariant succeeded == c.succeeded
        invariant firstTopologyUpdateCompleted == old(firstTopologyUpdateCompleted)
      {
        CombinedStep(effects, k);
        var ok := FetchTopology(getTopology, fetches[k].url, fetches[k].attempt);
        succeeded := succeeded || ok;
        c := Then(c, effects[k]);
        k := k + 1;
      }
      assert effects[..k] == effects;
      if succeeded && !firstTopologyUpdateCompleted {
        firstTopologyUpdateCompleted := true;
      }
    }
  }
}
