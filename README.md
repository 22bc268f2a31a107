# Agent-to-agent client, modelled in Dafny

This project models `common/a2a_client.py`, which holds the client side of agent-to-agent
communication:

- `AgentClient` talks to one remote agent. Its constructor normalises the base URL by
  removing every trailing `/`. `get_metadata` fetches the agent's metadata document from
  `/.well-known/agent.json` (the well-known URI prefix of section 3 of RFC 8615) and caches it
  in `_metadata`. `run` posts a message, a context and a session id to `/run`.
  `call_endpoint` posts to a custom endpoint, but first rejects it with a `ValueError` when the
  metadata lists `"endpoints"` and the endpoint is not among them.
- `AgentDiscovery` is a registry from agent names to URLs. `register_agent` adds or replaces
  an entry, `get_agent_url` looks a name up and raises `ValueError` for an unknown name, and
  `get_agent_client` builds an `AgentClient` for a registered name.

Files:

- `urls.dfy` (module `Urls`): `rstrip('/')` and its characterisation.
- `json.dfy` (module `JsonValues`): decoded JSON values, with Python's `None` as JSON `null`,
  and Python's `in` operator for a string item on such values.
- `a2a_client.dfy` (module `A2AClient`): errors, requests and replies, the pure steps of each
  client operation, the two classes, and the lemmas about them.
- `wrappers.dfy` (module `Wrappers`): the `Option` datatype.

The network is replaced by parameters. Each operation that talks to the remote agent receives
the reply the server gives to the request it sends. A reply is a status, a body decoded as
JSON (or none, when the body is not JSON) and a text. The ghost field `AgentClient.Sent`
records the requests a client has sent, so "no request is sent" can be stated. Each raised
exception is an `Error` constructor that carries the values its message formats.

The cache field holds a JSON value, and `JNull` means nothing is cached. This matches the
source's `self._metadata is None` test exactly. A consequence the model makes explicit: a 200
reply whose body is JSON `null` returns `None` but leaves the cache empty, so the next call
fetches again (`NullMetadataIsRefetched`).

## Model

| member | source | states |
|---|---|---|
| `Urls.StripTrailingSlashesCorrect` | common/a2a_client.py:23 | the normalised base URL is a prefix of the input, does not end in `/`, and the removed suffix consists only of `/` |
| `Urls.StripTrailingSlashesUnique` | common/a2a_client.py:23 | conversely, any prefix that has those three properties is the normalised URL, so they characterise `rstrip('/')` |
| `Urls.StripTrailingSlashesIdempotent` | common/a2a_client.py:23 | normalising twice equals normalising once, so a client built from another client's `base_url` gets the same `base_url` |
| `Urls.StripIgnoresTrailingSlashes` | common/a2a_client.py:23 | adding any number of trailing slashes to a URL does not change its normalised form |
| `JsonValues.OccursInIsSubstring` | common/a2a_client.py:97 | Python's `in` between two strings, as the guard applies it to a string-valued `"endpoints"`, holds exactly when the needle occurs at some position |
| `A2AClient.RunPayload` | common/a2a_client.py:59-66 | the `run` payload is an object with exactly the keys `message`, `context` and `session_id` |
| `A2AClient.RunPayloadRoundTrip` | common/a2a_client.py:59-66 | reading the payload back gives the caller's message and session id (`None` as JSON `null`), and the caller's context or an empty one |
| `A2AClient.NoContextIsEmptyContext` | common/a2a_client.py:59-60 | passing no context sends the same payload as passing an empty context |
| `A2AClient.FetchMetadata` | common/a2a_client.py:33-40 | a request is sent exactly when nothing is cached; a cached value is returned unchanged; on an empty cache, a 200 reply with a JSON body returns that body and caches it, and a 200 reply whose body is not JSON fails as invalid JSON; a non-200 reply fails with its status; every failure leaves the cache empty |
| `A2AClient.MetadataIsMemoised` | common/a2a_client.py:33-40 | after one successful fetch of non-null metadata, any later lookup returns it and sends nothing, whatever the server would reply |
| `A2AClient.NullMetadataIsRefetched` | common/a2a_client.py:33-40 | a 200 reply with a `null` body is returned, but the next lookup sends the metadata request again |
| `A2AClient.CheckEndpoint` | common/a2a_client.py:96-98 | the guard fails as "unavailable" exactly when the metadata is an object whose `"endpoints"` does not contain the endpoint; without `"endpoints"` every endpoint passes; when `"endpoints"` is present it passes exactly when Python's `in` finds the endpoint there (list membership for a list, key membership for an object, substring for a string); it fails in any other way only with a type error, as Python's `in` and `[...]` do on unsuitable values |
| `A2AClient.CallEndpointStep` | common/a2a_client.py:96-110 | the cache changes only through the metadata lookup; the endpoint post is sent exactly when the metadata was obtained and the guard passed; the call fails as "unavailable" exactly when the obtained metadata rejects the endpoint; a failed metadata lookup is the call's failure, and a rejecting guard's error is the call's failure; an admitted post returns the reply's body on 200, fails as invalid JSON on a 200 reply that is not JSON, and fails with the reply's status and text otherwise |
| `A2AClient.Replay` | common/a2a_client.py:123-133 | after a new registry receives a sequence of registrations, its known names are exactly the registered names |
| `A2AClient.ReplayRegisterStep` | common/a2a_client.py:133 | one more registration changes the replayed registry exactly as `RegisterAgent` changes `knownAgents`, so `Replay` is the registry's state after those calls |
| `A2AClient.ReplayLastRegistrationWins` | common/a2a_client.py:125-133 | a name maps to the URL of its last registration, so re-registering replaces the URL |
| `A2AClient.AgentClient.constructor` | common/a2a_client.py:16-24 | `base_url` is the given URL with trailing slashes removed; the cache is empty and nothing has been sent |
| `A2AClient.AgentClient.GetMetadata` | common/a2a_client.py:26-40 | the new cache, the result and the requests sent are those of `FetchMetadata` on the old cache |
| `A2AClient.AgentClient.Run` | common/a2a_client.py:42-78 | exactly one request is sent, a post of `RunPayload` to `base_url + "/run"` with a JSON content type; the result is the reply's JSON on status 200 and otherwise a failure with the reply's status and text |
| `A2AClient.AgentClient.CallEndpoint` | common/a2a_client.py:80-110 | the new cache, the result and the requests sent are those of `CallEndpointStep` on the old cache; an admitted post goes to `base_url + "/" + endpoint` |
| `A2AClient.AgentDiscovery.constructor` | common/a2a_client.py:115-123 | a new registry knows no agents and stores the discovery URL |
| `A2AClient.AgentDiscovery.RegisterAgent` | common/a2a_client.py:125-133 | the name now maps to the given URL, replacing any earlier one, and every other name's entry is unchanged |
| `A2AClient.AgentDiscovery.GetAgentUrl` | common/a2a_client.py:135-150 | succeeds exactly for registered names, with their URL; an unknown name fails with `NotRegistered`; the method has no `modifies` clause, so the registry is unchanged |
| `A2AClient.AgentDiscovery.GetAgentClient` | common/a2a_client.py:152-163 | fails exactly when the name is unknown, with the same error as `GetAgentUrl`; otherwise returns a new client whose `base_url` is the normalised registered URL, with an empty cache |

## Left out

- HTTP, `aiohttp` sessions, `async`/`await` and JSON decoding: each reply is a parameter that is already decoded, and concurrent calls on one client (two overlapping metadata fetches) are not modelled.
- Exception messages are not formatted as strings: each error constructor carries the values its message would show.
- JSON numbers are integers, so floating-point values are not modelled. Objects are maps, so key order is not modelled.
- Request headers are only the `Content-Type` header the source passes; headers that `aiohttp` adds itself are not modelled.
- `base_url` is a constant of the client object. Python callers could reassign the attribute, and the model does not capture that.
- `discovery_url` is stored and never read, just as in the source.
- `call_endpoint`'s `data` and `run`'s `context` are JSON objects, as their `Dict[str, Any]` annotations say. Arbitrary Python objects that the JSON encoder would reject are not modelled.
- `apps/a2a_speaker_app.py` is a Streamlit user interface over HTTP, and is not part of this model.
- `agents/async_reddit_scout/agent.py`, `agents/speaker/agent.py` and `agents/coordinator/agent.py` are declarative agent configurations around an external library and an external language model. They hold no logic to model.
