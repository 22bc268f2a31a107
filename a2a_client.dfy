/**
 * The agent-to-agent client: `AgentClient`, which talks to one remote agent
 * (metadata with a cache, the `/run` endpoint, custom endpoints behind a
 * membership guard), and `AgentDiscovery`, a registry from agent names to
 * URLs that hands out clients.
 *
 * The network is not modelled. Every operation that talks to the remote
 * agent takes, as a parameter, the reply the server gives to the request it
 * sends, and the ghost field `AgentClient.Sent` records which requests were
 * sent, so that "no request" is something a contract can state.
 */
module A2AClient {
  import opened Wrappers
  import opened JsonValues
  import opened Urls

  /** The exceptions the client raises, one constructor per raise site. */
  datatype Error =
    | MetadataUnavailable(status: int)                          // metadata reply not 200
    | RequestFailed(status: int, text: string)                  // `/run` reply not 200
    | EndpointUnavailable(endpoint: string, agent: Json)        // ValueError from the endpoint guard
    | EndpointRequestFailed(endpoint: string, status: int, text: string)
    | NotRegistered(name: string)                               // ValueError from the registry
    | TypeError                                                 // `in` or `[...]` on an unsuitable value
    | InvalidJson                                               // a 200 reply whose body is not JSON

  datatype Result<T> = Success(value: T) | Failure(error: Error)

  datatype Outcome = Pass | Fail(error: Error)

  datatype Verb = Get | Post

  datatype Request = Request(verb: Verb, url: string, headers: map<string, string>, json: Option<Json>)

  /** A server reply: its status, its body decoded as JSON (`None` if it is not JSON) and its text. */
  datatype Response = Response(status: int, body: Option<Json>, text: string)

  /** Well-known URI prefix of section 3 of RFC 8615, and the agent's metadata document beneath it. */
  const WellKnownPrefix: string := "/.well-known/"
  const AgentCard: string := "agent.json"
  const JsonHeaders: map<string, string> := map["Content-Type" := "application/json"]

  /* ---------------------------------------------------------------- requests */

  function MetadataRequest(base: string): Request {
    Request(Get, base + WellKnownPrefix + AgentCard, map[], None)
  }

  /** The JSON body `run` posts: exactly a message, a context and a session id. */
  function RunPayload(message: string, context: Option<map<string, Json>>, sessionId: Option<string>): (p: Json)
    ensures p.JObject? && p.fields.Keys == {"message", "context", "session_id"}
  {
    var ctx := if context.None? then map[] else context.value;
    var sid := if sessionId.None? then JNull else JString(sessionId.value);
    JObject(map["message" := JString(message), "context" := JObject(ctx), "session_id" := sid])
  }

  /** The arguments a `/run` payload carries, as the receiving agent reads them. */
  datatype RunArgs = RunArgs(message: string, context: map<string, Json>, sessionId: Option<string>)

  /** Reads a `/run` payload back; `None` for a value that no call of `run` could have sent. */
  function ParseRunPayload(p: Json): Option<RunArgs> {
    if !p.JObject? || p.fields.Keys != {"message", "context", "session_id"} then None
    else
      var m, c, s := p.fields["message"], p.fields["context"], p.fields["session_id"];
      if !m.JString? || !c.JObject? || !(s.JString? || s.JNull?) then None
      else Some(RunArgs(m.s, c.fields, if s.JNull? then None else Some(s.s)))
  }

  /** The payload carries the caller's values unchanged; a missing context is an empty one. */
  lemma RunPayloadRoundTrip(message: string, context: Option<map<string, Json>>, sessionId: Option<string>)
    ensures ParseRunPayload(RunPayload(message, context, sessionId))
         == Some(RunArgs(message, if context.None? then map[] else context.value, sessionId))
  {
  }

  /** Passing no context and passing an empty context send the same payload. */
  lemma NoContextIsEmptyContext(message: string, sessionId: Option<string>)
    ensures RunPayload(message, None, sessionId) == RunPayload(message, Some(map[]), sessionId)
  {
  }

  function RunRequest(base: string, payload: Json): Request {
    Request(Post, base + "/run", JsonHeaders, Some(payload))
  }

  function EndpointRequest(base: string, endpoint: string, data: map<string, Json>): Request {
    Request(Post, base + "/" + endpoint, JsonHeaders, Some(JObject(data)))
  }

  /** A reply's decoded body if its status is 200, otherwise the given error. */
  function ReplyJson(reply: Response, failure: Error): Result<Json> {
    if reply.status != 200 then Failure(failure)
    else if reply.body.None? then Failure(InvalidJson)
    else Success(reply.body.value)
  }

  /* ---------------------------------------------------------- metadata cache */

  /** What one metadata lookup does: the cache afterwards, the result, the requests sent. */
  datatype Step = Step(cache: Json, result: Result<Json>, sent: seq<Request>)

  /**
   * `get_metadata` on a client whose cache holds `cache` (`JNull` for nothing
   * cached), when the server would answer the metadata request with `reply`.
   */
  function FetchMetadata(base: string, cache: Json, reply: Response): (s: Step)
    // a request is sent exactly when nothing is cached
    ensures s.sent == if cache.JNull? then [MetadataRequest(base)] else []
    // a cached value is returned as it is and stays cached
    ensures !cache.JNull? ==> s.cache == cache && s.result == Success(cache)
    // on an empty cache, success means a 200 reply with a JSON body, which is then cached
    ensures cache.JNull? ==> (s.result.Success? <==> reply.status == 200 && reply.body.Some?)
    ensures s.result.Success? ==> s.cache == s.result.value
    // a failure happens only on an empty cache and leaves it empty
    ensures s.result.Failure? ==> cache.JNull? && s.cache.JNull?
    ensures cache.JNull? && reply.status != 200 ==> s.result == Failure(MetadataUnavailable(reply.status))
    // the value returned and cached is the reply's body
    ensures cache.JNull? && reply.status == 200 && reply.body.Some? ==> s.result == Success(reply.body.value)
    ensures cache.JNull? && reply.status == 200 && reply.body.None? ==> s.result == Failure(InvalidJson)
  {
    if !cache.JNull? then Step(cache, Success(cache), [])
    else
      var r := ReplyJson(reply, MetadataUnavailable(reply.status));
      Step(if r.Success? then r.value else JNull, r, [MetadataRequest(base)])
  }

  /** After one successful fetch of non-null metadata, every later lookup is served from the cache. */
  lemma MetadataIsMemoised(base: string, first: Response, later: Response)
    requires first.status == 200 && first.body.Some? && !first.body.value.JNull?
    ensures var s := FetchMetadata(base, JNull, first);
            FetchMetadata(base, s.cache, later) == Step(first.body.value, Success(first.body.value), [])
  {
  }

  /** A 200 reply whose body is `null` stores Python's `None`, so the next lookup fetches again. */
  lemma NullMetadataIsRefetched(base: string, first: Response, later: Response)
    requires first.status == 200 && first.body == Some(JNull)
    ensures FetchMetadata(base, JNull, first).result == Success(JNull)
    ensures FetchMetadata(base, FetchMetadata(base, JNull, first).cache, later).sent == [MetadataRequest(base)]
  {
  }

  /* ------------------------------------------------------------ endpoint guard */

  /** `metadata.get('name', 'unknown')`, as named in the guard's error. */
  function AgentName(metadata: Json): Json
    requires metadata.JObject?
  {
    GetOr(metadata, "name", JString("unknown"))
  }

  /** The metadata is an object that lists endpoints and `endpoint` is not among them. */
  predicate Rejects(metadata: Json, endpoint: string) {
    metadata.JObject? && "endpoints" in metadata.fields
    && Contains(metadata.fields["endpoints"], endpoint) == Some(false)
  }

  /**
   * `"endpoints" in metadata and endpoint not in metadata["endpoints"]`,
   * raising ValueError when true. Python's `in` and `[...]` raise a
   * TypeError on values that do not support them.
   */
  function CheckEndpoint(metadata: Json, endpoint: string): (r: Outcome)
    // rejected as unavailable exactly when the metadata lists endpoints without this one
    ensures r.Fail? && r.error.EndpointUnavailable? <==> Rejects(metadata, endpoint)
    ensures Rejects(metadata, endpoint) ==> r == Fail(EndpointUnavailable(endpoint, AgentName(metadata)))
    // every other failure is a type error
    ensures r.Fail? ==> r.error.EndpointUnavailable? || r.error == TypeError
    // metadata that lists no endpoints lets every endpoint through
    ensures metadata.JObject? && "endpoints" !in metadata.fields ==> r == Pass
    // with a list of endpoints, the guard is list membership
    // with endpoints listed, the guard passes exactly when Python's `in` finds the endpoint there
    ensures metadata.JObject? && "endpoints" in metadata.fields ==>
              (r == Pass <==> Contains(metadata.fields["endpoints"], endpoint) == Some(true))
    ensures metadata.JObject? && "endpoints" in metadata.fields && metadata.fields["endpoints"].JArray? ==>
              (r == Pass <==> JString(endpoint) in metadata.fields["endpoints"].items)
    // metadata that is not an object passes only if it does not contain "endpoints" at all
    ensures !metadata.JObject? ==> (r == Pass <==> Contains(metadata, "endpoints") == Some(false))
  {
    match Contains(metadata, "endpoints")
    case None => Fail(TypeError)
    case Some(false) => Pass
    case Some(true) =>
      if !metadata.JObject? then Fail(TypeError)   // a list or a string indexed by a string
      else
        match Contains(metadata.fields["endpoints"], endpoint)
        case None => Fail(TypeError)
        case Some(true) => Pass
        case Some(false) => Fail(EndpointUnavailable(endpoint, AgentName(metadata)))
  }

  /** `call_endpoint`: the metadata lookup, the guard, and the post to the endpoint. */
  function CallEndpointStep(base: string, cache: Json, endpoint: string, data: map<string, Json>,
                            metadataReply: Response, reply: Response): (s: Step)
    ensures var m := FetchMetadata(base, cache, metadataReply);
      // the cache changes only through the metadata lookup
      && s.cache == m.cache
      // the endpoint is posted to exactly when the metadata was obtained and admits it
      && s.sent == m.sent + (if m.result.Success? && CheckEndpoint(m.result.value, endpoint) == Pass
                             then [EndpointRequest(base, endpoint, data)] else [])
      // unavailable exactly when the metadata was obtained and rejects the endpoint
      && (s.result.Failure? && s.result.error.EndpointUnavailable? <==>
            m.result.Success? && Rejects(m.result.value, endpoint))
      // a failed metadata lookup is the call's failure
      && (m.result.Failure? ==> s.result == m.result)
      // a rejecting guard's error is the call's failure
      && (forall e :: m.result.Success? && CheckEndpoint(m.result.value, endpoint) == Fail(e) ==>
            s.result == Failure(e))
      // an admitted post returns the endpoint reply's body, or fails with its status and text
      && (m.result.Success? && CheckEndpoint(m.result.value, endpoint) == Pass ==>
            && (reply.status != 200 ==> s.result == Failure(EndpointRequestFailed(endpoint, reply.status, reply.text)))
            && (reply.status == 200 && reply.body.Some? ==> s.result == Success(reply.body.value))
            && (reply.status == 200 && reply.body.None? ==> s.result == Failure(InvalidJson)))
    ensures s.result.Failure? && s.result.error.EndpointRequestFailed? ==>
              s.result.error == EndpointRequestFailed(endpoint, reply.status, reply.text) && reply.status != 200
  {
    var m := FetchMetadata(base, cache, metadataReply);
    if m.result.Failure? then m
    else
      match CheckEndpoint(m.result.value, endpoint)
      case Fail(e) => Step(m.cache, Failure(e), m.sent)
      case Pass =>
        Step(m.cache, ReplyJson(reply, EndpointRequestFailed(endpoint, reply.status, reply.text)),
             m.sent + [EndpointRequest(base, endpoint, data)])
  }

  /* ------------------------------------------------------------------ client */

  class AgentClient {
    const baseUrl: string
    /** The metadata cache; `JNull` is Python's `None`, nothing cached. */
    var metadata: Json
    /** The requests this client has sent, oldest first. */
    ghost var Sent: seq<Request>

    constructor (url: string)
      ensures baseUrl == StripTrailingSlashes(url)
      ensures metadata == JNull && Sent == []
    {
      baseUrl := StripTrailingSlashes(url);
      metadata := JNull;
      Sent := [];
    }

    /** `get_metadata`, where `reply` is what the server answers if the metadata is requested. */
    method GetMetadata(reply: Response) returns (r: Result<Json>)
      modifies this`metadata, this`Sent
      ensures var s := FetchMetadata(baseUrl, old(metadata), reply);
              metadata == s.cache && r == s.result && Sent == old(Sent) + s.sent
    {
      if metadata.JNull? {
        Sent := Sent + [MetadataRequest(baseUrl)];
        if reply.status == 200 {
          if reply.body.None? {
            return Failure(InvalidJson);
          }
          metadata := reply.body.value;
        } else {
          return Failure(MetadataUnavailable(reply.status));
        }
      }
      r := Success(metadata);
    }

    /** `run`: posts the message, context and session id to the agent's `/run` endpoint. */
    method Run(message: string, context: Option<map<string, Json>>, sessionId: Option<string>, reply: Response)
      returns (r: Result<Json>)
      modifies this`Sent
      ensures Sent == old(Sent) + [RunRequest(baseUrl, RunPayload(message, context, sessionId))]
      ensures r == ReplyJson(reply, RequestFailed(reply.status, reply.text))
    {
      var payload := RunPayload(message, context, sessionId);
      Sent := Sent + [RunRequest(baseUrl, payload)];
      if reply.status == 200 {
        r := if reply.body.None? then Failure(InvalidJson) else Success(reply.body.value);
      } else {
        r := Failure(RequestFailed(reply.status, reply.text));
      }
    }

    /**
     * `call_endpoint`: `metadataReply` answers the metadata request if one is
     * sent, `reply` answers the post to the endpoint if that is sent.
     */
    method CallEndpoint(endpoint: string, data: map<string, Json>, metadataReply: Response, reply: Response)
      returns (r: Result<Json>)
      modifies this`metadata, this`Sent
      ensures var s := CallEndpointStep(baseUrl, old(metadata), endpoint, data, metadataReply, reply);
              metadata == s.cache && r == s.result && Sent == old(Sent) + s.sent
    {
      var m := GetMetadata(metadataReply);
      if m.Failure? {
        return m;
      }
      var guard := CheckEndpoint(m.value, endpoint);
      if guard.Fail? {
        return Failure(guard.error);
      }
      Sent := Sent + [EndpointRequest(baseUrl, endpoint, data)];
      if reply.status == 200 {
        r := if reply.body.None? then Failure(InvalidJson) else Success(reply.body.value);
      } else {
        r := Failure(EndpointRequestFailed(endpoint, reply.status, reply.text));
      }
    }
  }

  /* --------------------------------------------------------------- discovery */

  /** One `register_agent(name, url)` call. */
  datatype Registration = Registration(name: string, url: string)

  /**
   * The state of `knownAgents` of a new `AgentDiscovery` after `RegisterAgent`
   * was called with the given registrations, in order.
   */
  function Replay(regs: seq<Registration>): (known: map<string, string>)
    ensures known.Keys == set i | 0 <= i < |regs| :: regs[i].name
  {
    if regs == [] then map[]
    else
      var last := regs[|regs| - 1];
      var prior := regs[..|regs| - 1];
      assert forall i :: 0 <= i < |prior| ==> prior[i] == regs[i];
      Replay(prior)[last.name := last.url]
  }

  /** One more registration changes the replayed registry as `RegisterAgent` changes `knownAgents`. */
  lemma ReplayRegisterStep(regs: seq<Registration>, r: Registration)
    ensures Replay(regs + [r]) == Replay(regs)[r.name := r.url]
  {
    assert (regs + [r])[..|regs|] == regs;
  }

  /** The last registration of a name wins: the registry maps it to that registration's URL. */
  lemma {:induction false} ReplayLastRegistrationWins(regs: seq<Registration>, i: nat)
    requires i < |regs|
    requires forall j :: i < j < |regs| ==> regs[j].name != regs[i].name
    ensures regs[i].name in Replay(regs) && Replay(regs)[regs[i].name] == regs[i].url
  {
    if i < |regs| - 1 {
      var prior := regs[..|regs| - 1];
      assert forall j :: i < j < |prior| ==> prior[j] == regs[j];
      ReplayLastRegistrationWins(prior, i);
    }
  }

  class AgentDiscovery {
    /** Stored and never used. */
    const discoveryUrl: Option<string>
    var knownAgents: map<string, string>

    constructor (discoveryUrl: Option<string>)
      ensures this.discoveryUrl == discoveryUrl
      ensures knownAgents == map[]
    {
      this.discoveryUrl := discoveryUrl;
      knownAgents := map[];
    }

    /** Adds the name, or replaces its URL; every other entry is kept. */
    method RegisterAgent(name: string, url: string)
      modifies this`knownAgents
      ensures knownAgents == old(knownAgents)[name := url]
      ensures forall other :: other != name && other in old(knownAgents) ==>
                other in knownAgents && knownAgents[other] == old(knownAgents)[other]
    {
      knownAgents := knownAgents[name := url];
    }

    /** The registered URL, or `NotRegistered` for an unknown name; changes nothing. */
    method GetAgentUrl(name: string) returns (r: Result<string>)
      ensures r.Success? <==> name in knownAgents
      ensures r.Success? ==> r.value == knownAgents[name]
      ensures r.Failure? ==> r.error == NotRegistered(name)
    {
      if name !in knownAgents {
        return Failure(NotRegistered(name));
      }
      r := Success(knownAgents[name]);
    }

    /** A fresh client for the registered URL; fails exactly as `GetAgentUrl` does. */
    method GetAgentClient(name: string) returns (r: Result<AgentClient>)
      ensures r.Failure? <==> name !in knownAgents
      ensures r.Failure? ==> r.error == NotRegistered(name)
      ensures r.Success? ==> fresh(r.value) && r.value.baseUrl == StripTrailingSlashes(knownAgents[name])
                             && r.value.metadata == JNull && r.value.Sent == []
    {
      var url := GetAgentUrl(name);
      if url.Failure? {
        return Failure(url.error);
      }
      var client := new AgentClient(url.value);
      r := Success(client);
    }
  }
}
