# frkr ingest gateway: the publish pipeline in Dafny

This project models the request pipeline of the frkr ingest gateway. The gateway
accepts mirrored HTTP-request records from client SDKs on `POST /ingest`. It
checks that the method is POST and that its dependencies are ready. It then
decodes the body, authenticates the caller for the named stream with the
permission "write", and resolves the stream to a broker topic. Finally it
serialises the mirrored request and publishes it with the request id as the
message key. When the broker reports a missing topic, the gateway creates the
topic and retries the write exactly once. The first failing step decides the
HTTP status.

The model has five modules:

- `Strings` (`strings.dfy`) covers substring search as Go's `strings.Contains`
  does it, case-sensitively, plus a first-index search used to read URLs back.
- `Pipeline` (`pipeline.dfy`) holds the data model and the reference decision.
  - Every collaborator is an oracle field of a `Scenario` record. These are the
    readiness gate, the JSON decoder, the credential check, the topic lookup,
    the serialiser, the two writes and the topic creation.
  - `OutcomeOf` is the cascade. `ReplyFor` is the reply each outcome sends.
  - `Script` is the order of collaborator calls, and `CallsMade` is how far
    along that order an outcome gets.
  - `MetricsFor` is the metric events an outcome emits.
  - The lemmas state what these promise.
- `IngestHandlers` (`handlers.dfy`) is the current handler, an imperative
  method. It reassigns a local status code on each branch and builds the log
  of calls and the list of metric events as it goes.
  - A labelled block stands for the closure body. A `break` stands for an
    early `return`.
  - The statement after the block is the deferred request metric, which reads
    the final status code.
  - `Publish` is the broker half of the same closure, kept as a method of its
    own.
- `LegacyGateway` (`legacy.dfy`) is the older copy in the gateway's main
  package. It authenticates with the Basic authorization header, has no
  metrics and uses early returns.
- `GatewayServer` (`server.dfy`) covers the server record and its constructor,
  the database URL handed to the health endpoints (with a parser that reads
  the URL back), and the route table.

Both handlers are proved against the same reference decision. This holds for
every scenario in which the decoded request is present when the message is
built. In each such scenario, each handler sends `ReplyFor(OutcomeOf(sc))` and
makes exactly the first `CallsMade(OutcomeOf(sc))` calls of the pipeline's
script. The lemmas about replies and calls then hold for both handlers: the
ordering, bounded recovery, identical retries, the topic used by lookup and
creation, and the status table. The current handler also emits exactly
`MetricsFor(sc)`, so the metric rules hold for it. The legacy handler emits
no metrics.

Some behaviour one might expect of such a gateway is not what the code does,
and the model follows the code:

- The missing-topic classifier is case-sensitive and recognises exactly four
  markers: "Unknown Topic", "does not exist", "UnknownTopic" and "topic or
  partition". It is not a case-insensitive heuristic.
  `Pipeline.LowerCaseNotClassified` shows that "unknown topic" is not
  classified as a missing topic.
- Treating "topic already exists" as success is up to the topic-creation
  collaborator in the external frkr-common library. The handler sees only
  success or an error.
- A successful authentication emits no metric.
- A serialisation failure (500) emits no publish-error metric.
- The health database URL puts the user and password in unescaped. A password
  containing '/' ends the URL's authority early. Such a URL reads back with
  no user, with the user as host and the start of the password as port.
  `GatewayServer.UnescapedPasswordMisread` states this; it was not executed.

## Model

| member | source | states |
|---|---|---|
| Strings.Contains | internal/gateway/server/handlers.go:91 | the substring test holds exactly when the marker occurs at some position of the error text; no case folding |
| Pipeline.MissingTopicIffMarker | internal/gateway/server/handlers.go:91 | the classifier `IsMissingTopicError` holds exactly when one of the four markers occurs in the error text |
| Pipeline.MarkerInContextClassified | internal/gateway/server/handlers.go:91 | any error text with one of the four markers embedded anywhere is classified as a missing topic |
| Pipeline.LowerCaseNotClassified | cmd/gateway/main.go:158 | the match is case-sensitive: "unknown topic" is not a missing-topic error |
| Pipeline.OutcomeOf | internal/gateway/server/handlers.go:32-125 | the reference cascade: the broker stage is reached exactly when method, readiness, decode, auth, lookup and serialisation all pass, and publishing succeeds only when the first write or the retry succeeded |
| Pipeline.OutcomeConditions | internal/gateway/server/handlers.go:32-119 | each outcome happens exactly when every earlier check passed and its own step failed, in the order method, readiness, decode, auth, lookup, serialise, write, create, retry |
| Pipeline.HttpError | internal/gateway/server/handlers.go:34 | an error reply carries the given status and a body that ends in a newline |
| Pipeline.ReplyFor | internal/gateway/server/handlers.go:32-125 | each outcome's reply carries its status code; the body is "OK" exactly on 202 |
| Pipeline.StatusTable | internal/gateway/server/handlers.go:23-125 | 405 iff not POST, 503 iff POST and not ready, 400 iff decode failed, 401 iff auth failed, 404 iff lookup failed, 500 iff a later step failed, 202 iff published |
| Pipeline.MessageOf | internal/gateway/server/handlers.go:83-87 | once serialisation succeeded, the message has the resolved topic, the request id as key and the serialised request as value |
| Pipeline.Script | internal/gateway/server/handlers.go:83-106 | the full call script has eight calls, and the retry (the eighth) is the same write as the first (the sixth) |
| Pipeline.CallsMade | internal/gateway/server/handlers.go:83-119 | a write is made exactly for the broker outcomes; all eight calls are made exactly when the retry happened |
| Pipeline.ScriptKinds | internal/gateway/server/handlers.go:39-106 | the calls come in the fixed order readiness, decode, auth, lookup, serialise, write, create, write |
| Pipeline.SchemesDifferOnlyInAuth | cmd/gateway/main.go:127-132 | the legacy handler's call order matches the current one except at the credential check, which reads the Basic authorization header |
| Pipeline.FollowsPipelineKinds | internal/gateway/server/handlers.go:39-106 | a request's calls, by kind, are exactly the prefix of the fixed order that its outcome reaches |
| Pipeline.BoundedRecovery | internal/gateway/server/handlers.go:88-113 | at most one creation and two writes; a creation happens iff the first write failed with a missing-topic error; a second write happens iff that creation succeeded |
| Pipeline.AuthGuardsTopic | internal/gateway/server/handlers.go:56-66 | no lookup, write or creation happens unless the credential check for the decoded stream ran before it and succeeded |
| Pipeline.TopicCallsUseResolvedTopic | internal/gateway/server/handlers.go:94 | the lookup asks for the decoded stream; a creation targets the topic the lookup resolved, on the server's broker URL, and happens only after a missing-topic write error |
| Pipeline.WritesIdentical | internal/gateway/server/handlers.go:83-106 | every write sends the same message: resolved topic, request id key, serialised value; the retry repeats the first write |
| Pipeline.EarlyExits | internal/gateway/server/handlers.go:32-72 | 405 makes no call; 503 only asks readiness; 400 only readiness and decode; 401 stops right after the credential check; 404 stops right after the lookup |
| Pipeline.MetricsFor | internal/gateway/server/handlers.go:23-29 | one or two events; the last records the method, "/ingest" and the reply's status; there are two exactly when auth failed or the broker stage was reached |
| Pipeline.RecordedStatusIsSent | internal/gateway/server/handlers.go:23-29 | the deferred request metric is the last event and records the status the reply carries; no other request metric is emitted |
| Pipeline.PublishedOnlyOnAccept | internal/gateway/server/handlers.go:122-125 | "message published" is metered, for the request's stream, exactly when the reply is 202 |
| Pipeline.AuthFailureMetered | internal/gateway/server/handlers.go:56-63 | an auth failure with reason "auth_failed" is metered exactly when the reply is 401 |
| Pipeline.PublishErrorMetered | internal/gateway/server/handlers.go:94-119 | a publish error is metered exactly when a broker step failed, labelled "write_failed", "topic_creation_failed" or "write_retry_failed" by the step; a serialisation failure meters only the request |
| IngestHandlers.IngestHandler | internal/gateway/server/handlers.go:20-127 | the reply is the reference decision's reply, the calls are the script prefix the outcome reaches, and the metrics are exactly the outcome's events followed by the deferred request metric |
| IngestHandlers.Publish | internal/gateway/server/handlers.go:83-125 | from a marshalled request, the local status code equals the reply status, and reply, calls and metrics are those the reference decision prescribes |
| LegacyGateway.MakeIngestHandler | cmd/gateway/main.go:107-186 | the legacy handler sends the reference decision's reply and makes the script prefix its outcome reaches, with the Basic-header credential check |
| GatewayServer.NewIngestGatewayServer | internal/gateway/server/server.go:37-44 | each of the six dependencies is stored unchanged in its own field |
| GatewayServer.EffectivePort | internal/gateway/server/server.go:54-57 | an empty port becomes "26257"; a non-empty port is kept |
| GatewayServer.HealthDbUrl | internal/gateway/server/server.go:50-67 | a configured URL is used verbatim; otherwise the URL starts with "postgres://" and ends with "/" and the database name |
| GatewayServer.UserInfoRoundTrip | internal/gateway/server/server.go:59-63 | `user` reads back with no password at all; `user:password` reads back with that password |
| GatewayServer.DbUrlRoundTrip | internal/gateway/server/server.go:58-66 | the assembled URL reads back as the user, the host, the effective port and the name, and a password exactly when a user and a non-empty password are configured, so `user@host` and `user:pass@host` are told apart |
| GatewayServer.UnescapedPasswordMisread | internal/gateway/server/server.go:59-60 | with a user and a password `before/after`, the unescaped URL reads back with no user, the user as host, `before` as port, and the rest of the URL as database name |
| GatewayServer.CredentialsMarkerIffUser | internal/gateway/server/server.go:64-66 | when host, port and name hold no '@', the assembled URL holds one exactly when a user is set |
| GatewayServer.SetupHandlers | internal/gateway/server/server.go:69-76 | the health endpoints get the port, the derived database URL and the broker URL; SetupHandlers itself routes exactly /metrics and /ingest, /ingest to this server's ingest handler |

## Left out

- Process lifecycle in the legacy main package: flags, opening the database, building the writer, signals, graceful shutdown. These are I/O and concurrency.
- Collaborators from the external frkr-common library and the kafka-go client are oracle fields of `Scenario`, not implementations: the credential checks, the topic lookup, topic creation, the readiness checker and the broker writer.
- JSON and protobuf decoding and encoding are oracles that return a value or an error message.
- Metrics registration, service info, the Prometheus handler and request timing are left out. The request metric's duration is not modelled, so only the metric events remain.
- Log messages are not modelled.
- Header extraction for the legacy Basic credential check is left out; the header value is a field of the scenario.
- The nil-request dereference is not modelled. When the decoded body has no mirrored request, both handlers dereference a nil pointer to build the message key. The model requires the request to be present whenever the pipeline reaches the write (`RequestPresentAtWrite`) and does not model the panic.
- The message key is `[]byte` of the request id in the source and a string in the model.
- Each handler returns its calls and its metrics as two separate sequences. The interleaving of calls with metric events is not modelled.
- `RegisterHealthEndpoints` is not part of this model. `SetupHandlers` returns what it would be handed instead of registering handlers on a mux.
- Concurrent requests, the shared writer and races between topic creators are concurrency and are left out.
- GatewayServer.HealthDbUrl: its own contract states only the configured-URL case, the scheme prefix and the name suffix. The parser round trip and `CredentialsMarkerIffUser` pin down the rest. The round trip needs a user, host and port free of '@', ':' and '/', and a password free of '@' and '/'. Other values break the URL in the source itself, because it does not escape them (see `UnescapedPasswordMisread`).
