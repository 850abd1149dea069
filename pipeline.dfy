/** The ingest decision pipeline shared by both copies of the /ingest handler:
    the data the handler reads, the answers its collaborators give, the
    missing-topic classifier, the outcome each request reaches, the reply and
    metrics that outcome produces, and the order in which collaborators are
    consulted. */
module Pipeline {
  import opened Strings

  newtype byte = x: int | 0 <= x < 256

  datatype Option<T> = None | Some(value: T)

  /** A Go `error` value: nil, or an error with its Error() text. */
  datatype Err = Nil | Error(msg: string)

  /** A Go `(value, error)` pair where the value is only meaningful without an error. */
  datatype Fallible<T> = Ok(value: T) | Failed(msg: string)

  /** One mirrored HTTP request as recorded by an SDK. */
  datatype MirroredRequest = MirroredRequest(
    httpMethod: string,
    path: string,
    headers: map<string, string>,
    body: seq<byte>,
    query: map<string, string>,
    timestampNs: int,
    requestId: string)

  /** The decoded /ingest body; `request` is a pointer in the source and may be absent. */
  datatype IngestRequest = IngestRequest(streamId: string, request: Option<MirroredRequest>)

  /** A broker message: topic, partition key (the request id) and serialised value. */
  datatype Message = Message(topic: string, key: string, value: seq<byte>)

  /** What the incoming request carries and what each collaborator answers when asked.
      Each field is consulted at most once per request. */
  datatype Scenario = Scenario(
    httpMethod: string,                    // r.Method
    authHeader: string,                // the Authorization header
    ready: bool,                       // HealthChecker.IsReady()
    decoded: Fallible<IngestRequest>,  // JSON decoding of the body
    auth: Err,                         // credential check for the stream with permission "write"
    topic: Fallible<string>,           // GetStreamTopic(stream id)
    marshalled: Fallible<seq<byte>>,   // json.Marshal(req.Request)
    firstWrite: Err,                   // the first WriteMessages
    create: Err,                       // CreateTopicIfNotExists
    retryWrite: Err)                   // the WriteMessages after creating the topic

  const MethodPost := "POST"
  const IngestPath := "/ingest"
  const ServiceName := "frkr-ingest-gateway"
  const WritePermission := "write"

  const StatusAccepted := 202
  const StatusBadRequest := 400
  const StatusUnauthorized := 401
  const StatusNotFound := 404
  const StatusMethodNotAllowed := 405
  const StatusInternalServerError := 500
  const StatusServiceUnavailable := 503

  /** Texts of the replies (http.Error appends a newline) and metric labels. */
  const MsgMethodNotAllowed := "Method not allowed"
  const MsgUnavailable := "Service unavailable - dependencies not ready"
  const MsgInvalidRequest := "Invalid request: "
  const MsgUnauthorized := "Unauthorized"
  const MsgStreamNotFound := "Stream not found"
  const MsgSerializeFailed := "Failed to serialize request"
  const MsgIngestFailed := "Failed to ingest request: "
  const MsgCreationFailed := "Topic not found and creation failed: "
  const BodyOK := "OK"
  const AuthFailedReason := "auth_failed"
  const LabelWriteFailed := "write_failed"
  const LabelCreationFailed := "topic_creation_failed"
  const LabelRetryFailed := "write_retry_failed"

  // ---------------------------------------------------------------------------
  // The missing-topic classifier

  const MissingTopicMarkers: seq<string> :=
    ["Unknown Topic", "does not exist", "UnknownTopic", "topic or partition"]

  /** A broker write error counts as "the topic is missing" when its text
      contains one of the four markers, compared case-sensitively. */
  predicate IsMissingTopicError(errText: string) {
    Contains(errText, "Unknown Topic") || Contains(errText, "does not exist")
    || Contains(errText, "UnknownTopic") || Contains(errText, "topic or partition")
  }

  /** The classifier holds exactly when some marker occurs somewhere in the text. */
  lemma MissingTopicIffMarker(errText: string)
    ensures IsMissingTopicError(errText) <==>
      exists m, i :: m in MissingTopicMarkers && OccursAt(errText, m, i)
  {
    if IsMissingTopicError(errText) {
      var m := if Contains(errText, "Unknown Topic") then "Unknown Topic"
        else if Contains(errText, "does not exist") then "does not exist"
        else if Contains(errText, "UnknownTopic") then "UnknownTopic"
        else "topic or partition";
      assert m in MissingTopicMarkers;
      var i :| OccursAt(errText, m, i);
    }
  }

  /** Any error text that embeds a marker is classified, whatever surrounds it. */
  lemma MarkerInContextClassified(prefix: string, marker: string, suffix: string)
    requires marker in MissingTopicMarkers
    ensures IsMissingTopicError(prefix + marker + suffix)
  {
    ContainsInContext(prefix, marker, suffix);
  }

  /** The match is case-sensitive: the lower-case text "unknown topic" is not classified. */
  lemma LowerCaseNotClassified()
    ensures !IsMissingTopicError("unknown topic")
  {
    var t := "unknown topic";
    NotContainsWithoutFirstChar(t, "Unknown Topic");
    NotContainsWithoutFirstChar(t, "UnknownTopic");
    NotContainsWithoutFirstChar(t, "does not exist");
    NotContainsWithoutFirstChar(t, "topic or partition");
  }

  // ---------------------------------------------------------------------------
  // How far a request gets

  /** The checks that must all have passed before each step runs. */
  predicate IsPost(sc: Scenario) { sc.httpMethod == MethodPost }
  predicate PassesReadiness(sc: Scenario) { IsPost(sc) && sc.ready }
  predicate PassesDecode(sc: Scenario) { PassesReadiness(sc) && sc.decoded.Ok? }
  predicate PassesAuth(sc: Scenario) { PassesDecode(sc) && sc.auth.Nil? }
  predicate PassesLookup(sc: Scenario) { PassesAuth(sc) && sc.topic.Ok? }
  predicate PassesMarshal(sc: Scenario) { PassesLookup(sc) && sc.marshalled.Ok? }
  predicate TopicMissing(sc: Scenario) {
    PassesMarshal(sc) && sc.firstWrite.Error? && IsMissingTopicError(sc.firstWrite.msg)
  }
  predicate TopicCreated(sc: Scenario) { TopicMissing(sc) && sc.create.Nil? }

  /** The handler dereferences the decoded request pointer only once it builds the message. */
  predicate RequestPresentAtWrite(sc: Scenario) {
    PassesMarshal(sc) ==> sc.decoded.value.request.Some?
  }

  /** Where the pipeline stops. */
  datatype Outcome =
    | MethodNotAllowed
    | Unavailable
    | BadRequest(decodeErr: string)
    | Unauthorized
    | StreamNotFound
    | SerializeFailed
    | WriteFailed(writeErr: string)
    | TopicCreationFailed(createErr: string)
    | WriteRetryFailed(retryErr: string)
    | Published(retried: bool)

  /** The reference decision: the first failing check decides the outcome. */
  function OutcomeOf(sc: Scenario): (out: Outcome)
    ensures PassesMarshal(sc) <==>
      out.WriteFailed? || out.TopicCreationFailed? || out.WriteRetryFailed? || out.Published?
    ensures out.Published? ==> sc.firstWrite.Nil? || sc.retryWrite.Nil?
  {
    if !IsPost(sc) then MethodNotAllowed
    else if !sc.ready then Unavailable
    else if sc.decoded.Failed? then BadRequest(sc.decoded.msg)
    else if sc.auth.Error? then Unauthorized
    else if sc.topic.Failed? then StreamNotFound
    else if sc.marshalled.Failed? then SerializeFailed
    else if sc.firstWrite.Nil? then Published(false)
    else if !IsMissingTopicError(sc.firstWrite.msg) then WriteFailed(sc.firstWrite.msg)
    else if sc.create.Error? then TopicCreationFailed(sc.create.msg)
    else if sc.retryWrite.Error? then WriteRetryFailed(sc.retryWrite.msg)
    else Published(true)
  }

  /** Each outcome is reached exactly when the checks before it pass and its own fails. */
  lemma OutcomeConditions(sc: Scenario)
    ensures OutcomeOf(sc) == MethodNotAllowed <==> sc.httpMethod != MethodPost
    ensures OutcomeOf(sc) == Unavailable <==> IsPost(sc) && !sc.ready
    ensures OutcomeOf(sc).BadRequest? <==> PassesReadiness(sc) && sc.decoded.Failed?
    ensures OutcomeOf(sc) == Unauthorized <==> PassesDecode(sc) && sc.auth.Error?
    ensures OutcomeOf(sc) == StreamNotFound <==> PassesAuth(sc) && sc.topic.Failed?
    ensures OutcomeOf(sc) == SerializeFailed <==> PassesLookup(sc) && sc.marshalled.Failed?
    ensures OutcomeOf(sc).WriteFailed? <==>
      PassesMarshal(sc) && sc.firstWrite.Error? && !IsMissingTopicError(sc.firstWrite.msg)
    ensures OutcomeOf(sc).TopicCreationFailed? <==> TopicMissing(sc) && sc.create.Error?
    ensures OutcomeOf(sc).WriteRetryFailed? <==> TopicCreated(sc) && sc.retryWrite.Error?
    ensures OutcomeOf(sc).Published? <==>
      PassesMarshal(sc) && (sc.firstWrite.Nil? || (TopicCreated(sc) && sc.retryWrite.Nil?))
    ensures OutcomeOf(sc) == Published(true) <==> TopicCreated(sc) && sc.retryWrite.Nil?
  {
  }

  // ---------------------------------------------------------------------------
  // Replies

  /** The HTTP reply: status code and body bytes written. */
  datatype Reply = Reply(status: int, body: string)

  /** http.Error writes the message followed by a newline. */
  function HttpError(msg: string, status: int): (r: Reply)
    ensures r.status == status && |r.body| > 0 && r.body[|r.body| - 1] == '\n'
  {
    Reply(status, msg + "\n")
  }

  function StatusCode(out: Outcome): int {
    match out
    case MethodNotAllowed => StatusMethodNotAllowed
    case Unavailable => StatusServiceUnavailable
    case BadRequest(_) => StatusBadRequest
    case Unauthorized => StatusUnauthorized
    case StreamNotFound => StatusNotFound
    case SerializeFailed => StatusInternalServerError
    case WriteFailed(_) => StatusInternalServerError
    case TopicCreationFailed(_) => StatusInternalServerError
    case WriteRetryFailed(_) => StatusInternalServerError
    case Published(_) => StatusAccepted
  }

  /** The reply each outcome sends. */
  function ReplyFor(out: Outcome): (r: Reply)
    ensures r.status == StatusCode(out)
    ensures r.status == StatusAccepted <==> r.body == BodyOK
  {
    match out
    case MethodNotAllowed => HttpError(MsgMethodNotAllowed, StatusMethodNotAllowed)
    case Unavailable => HttpError(MsgUnavailable, StatusServiceUnavailable)
    case BadRequest(e) => HttpError(MsgInvalidRequest + e, StatusBadRequest)
    case Unauthorized => HttpError(MsgUnauthorized, StatusUnauthorized)
    case StreamNotFound => HttpError(MsgStreamNotFound, StatusNotFound)
    case SerializeFailed => HttpError(MsgSerializeFailed, StatusInternalServerError)
    case WriteFailed(e) => HttpError(MsgIngestFailed + e, StatusInternalServerError)
    case TopicCreationFailed(e) =>
      HttpError(MsgCreationFailed + e, StatusInternalServerError)
    case WriteRetryFailed(e) => HttpError(MsgIngestFailed + e, StatusInternalServerError)
    case Published(_) => Reply(StatusAccepted, BodyOK)
  }

  /** The status sent is fixed by how far the request got, in both directions. */
  lemma StatusTable(sc: Scenario)
    ensures var s := StatusCode(OutcomeOf(sc));
      && (s == 405 <==> !IsPost(sc))
      && (s == 503 <==> IsPost(sc) && !sc.ready)
      && (s == 400 <==> PassesReadiness(sc) && sc.decoded.Failed?)
      && (s == 401 <==> PassesDecode(sc) && sc.auth.Error?)
      && (s == 404 <==> PassesAuth(sc) && sc.topic.Failed?)
      && (s == 500 <==> PassesLookup(sc) && !(PassesMarshal(sc) && (sc.firstWrite.Nil? || (TopicCreated(sc) && sc.retryWrite.Nil?))))
      && (s == 202 <==> PassesMarshal(sc) && (sc.firstWrite.Nil? || (TopicCreated(sc) && sc.retryWrite.Nil?)))
  {
  }

  // ---------------------------------------------------------------------------
  // Collaborator calls and metric events

  datatype Call =
    | IsReady
    | DecodeBody
    | Authenticate(streamId: string, permission: string)    // AuthenticateHTTPRequest
    | ValidateBasicAuth(header: string, streamId: string)   // ValidateBasicAuthForStream
    | GetStreamTopic(streamId: string)
    | MarshalRequest(request: Option<MirroredRequest>)
    | WriteMessages(msg: Message)
    | CreateTopicIfNotExists(brokerUrl: string, topic: string)

  datatype Metric =
    | AuthFailure(service: string, reason: string)
    | PublishError(streamId: string, errorLabel: string)
    | MessagePublished(streamId: string)
    | IngestRecorded(httpMethod: string, path: string, status: int)

  datatype CallKind = KReady | KDecode | KAuth | KLookup | KMarshal | KWrite | KCreate

  function KindOf(c: Call): CallKind {
    match c
    case IsReady => KReady
    case DecodeBody => KDecode
    case Authenticate(_, _) => KAuth
    case ValidateBasicAuth(_, _) => KAuth
    case GetStreamTopic(_) => KLookup
    case MarshalRequest(_) => KMarshal
    case WriteMessages(_) => KWrite
    case CreateTopicIfNotExists(_, _) => KCreate
  }

  function Kinds(calls: seq<Call>): (ks: seq<CallKind>)
    ensures |ks| == |calls|
    ensures forall i :: 0 <= i < |calls| ==> ks[i] == KindOf(calls[i])
  {
    seq(|calls|, i requires 0 <= i < |calls| => KindOf(calls[i]))
  }

  /** Every call the pipeline can make, in the only order it makes them. */
  const FullScript: seq<CallKind> := [KReady, KDecode, KAuth, KLookup, KMarshal, KWrite, KCreate, KWrite]

  /** How many calls of the full script a request with this outcome makes. */
  function CallsMade(out: Outcome): (n: nat)
    ensures n <= |FullScript|
    ensures n >= 6 <==> out.WriteFailed? || out.TopicCreationFailed? || out.WriteRetryFailed? || out.Published?
    ensures n == |FullScript| <==> out.WriteRetryFailed? || out == Published(true)
  {
    match out
    case MethodNotAllowed => 0
    case Unavailable => 1
    case BadRequest(_) => 2
    case Unauthorized => 3
    case StreamNotFound => 4
    case SerializeFailed => 5
    case WriteFailed(_) => 6
    case Published(retried) => if retried then 8 else 6
    case TopicCreationFailed(_) => 7
    case WriteRetryFailed(_) => 8
  }

  /** Which credential check a handler uses. */
  datatype AuthScheme = HttpRequestAuth | BasicAuthHeader

  /** The stream id of the decoded body ("" while no body has been decoded). */
  function DecodedStreamId(sc: Scenario): string {
    if sc.decoded.Ok? then sc.decoded.value.streamId else ""
  }

  /** The mirrored request of the decoded body, as the pointer the source marshals. */
  function DecodedRequest(sc: Scenario): Option<MirroredRequest> {
    if sc.decoded.Ok? then sc.decoded.value.request else None
  }

  /** The resolved topic ("" while none has been resolved). */
  function ResolvedTopic(sc: Scenario): string {
    if sc.topic.Ok? then sc.topic.value else ""
  }

  /** The credential check for the decoded stream. */
  function AuthCall(sc: Scenario, scheme: AuthScheme): Call {
    match scheme
    case HttpRequestAuth => Authenticate(DecodedStreamId(sc), WritePermission)
    case BasicAuthHeader => ValidateBasicAuth(sc.authHeader, DecodedStreamId(sc))
  }

  /** The message every write sends: the resolved topic, the request id as key
      and the serialised request as value. A handler only writes once all three
      are known, so the defaults for missing parts never reach a write. */
  function MessageOf(sc: Scenario): (m: Message)
    ensures PassesMarshal(sc) && RequestPresentAtWrite(sc) ==>
      m.topic == sc.topic.value && m.key == sc.decoded.value.request.value.requestId
      && m.value == sc.marshalled.value
  {
    Message(
      ResolvedTopic(sc),
      if sc.decoded.Ok? && sc.decoded.value.request.Some? then sc.decoded.value.request.value.requestId else "",
      if sc.marshalled.Ok? then sc.marshalled.value else [])
  }

  /** Every call a request can make, in the only order a handler makes them. */
  function Script(sc: Scenario, brokerUrl: string, scheme: AuthScheme): (calls: seq<Call>)
    ensures |calls| == |FullScript|
    ensures calls[5] == calls[7] && calls[5].WriteMessages?
  {
    [IsReady, DecodeBody, AuthCall(sc, scheme), GetStreamTopic(DecodedStreamId(sc)),
     MarshalRequest(DecodedRequest(sc)), WriteMessages(MessageOf(sc)),
     CreateTopicIfNotExists(brokerUrl, ResolvedTopic(sc)), WriteMessages(MessageOf(sc))]
  }

  /** The script makes the calls of the full script, kind by kind. */
  lemma ScriptKinds(sc: Scenario, brokerUrl: string, scheme: AuthScheme)
    ensures Kinds(Script(sc, brokerUrl, scheme)) == FullScript
  {
  }

  /** The two handlers make the same calls in the same order; only the
      credential check, the third call, differs between them. */
  lemma SchemesDifferOnlyInAuth(sc: Scenario, brokerUrl: string, i: int)
    requires 0 <= i < |FullScript|
    ensures Script(sc, brokerUrl, HttpRequestAuth)[i] == Script(sc, brokerUrl, BasicAuthHeader)[i] <==> i != 2
  {
  }

  /** The calls of one request: the first calls of the script, as many as the outcome decides. */
  predicate FollowsPipeline(sc: Scenario, brokerUrl: string, scheme: AuthScheme, calls: seq<Call>) {
    calls == Script(sc, brokerUrl, scheme)[..CallsMade(OutcomeOf(sc))]
  }

  /** Making the next call of a script keeps the calls a prefix of it. */
  lemma PrefixStep<T>(s: seq<T>, calls: seq<T>, c: T)
    requires |calls| < |s| && calls == s[..|calls|] && c == s[|calls|]
    ensures calls + [c] == s[..|calls| + 1]
  {
  }

  /** The kinds of the calls are exactly the prefix of the full script. */
  lemma FollowsPipelineKinds(sc: Scenario, brokerUrl: string, scheme: AuthScheme, calls: seq<Call>)
    requires FollowsPipeline(sc, brokerUrl, scheme, calls)
    ensures Kinds(calls) == FullScript[..CallsMade(OutcomeOf(sc))]
  {
    ScriptKinds(sc, brokerUrl, scheme);
    assert Kinds(Script(sc, brokerUrl, scheme))[..CallsMade(OutcomeOf(sc))] == Kinds(calls);
  }

  /** The metrics a request emits before the deferred request metric, by outcome. */
  function OutcomeMetrics(out: Outcome, streamId: string): (ms: seq<Metric>)
    ensures |ms| <= 1
  {
    match out
    case Unauthorized => [AuthFailure(ServiceName, AuthFailedReason)]
    case WriteFailed(_) => [PublishError(streamId, LabelWriteFailed)]
    case TopicCreationFailed(_) => [PublishError(streamId, LabelCreationFailed)]
    case WriteRetryFailed(_) => [PublishError(streamId, LabelRetryFailed)]
    case Published(_) => [MessagePublished(streamId)]
    case _ => []
  }

  /** All metrics of a request: the outcome's own, then the deferred request metric. */
  function MetricsFor(sc: Scenario): (ms: seq<Metric>)
    ensures 1 <= |ms| <= 2
    ensures ms[|ms| - 1] == IngestRecorded(sc.httpMethod, IngestPath, ReplyFor(OutcomeOf(sc)).status)
    ensures |ms| == 2 <==> PassesDecode(sc) && (sc.auth.Error? || PassesMarshal(sc))
  {
    var out := OutcomeOf(sc);
    OutcomeMetrics(out, DecodedStreamId(sc)) + [IngestRecorded(sc.httpMethod, IngestPath, StatusCode(out))]
  }

  // ---------------------------------------------------------------------------
  // What FollowsPipeline and MetricsFor promise

  function Count(ks: seq<CallKind>, k: CallKind): (n: nat)
    ensures n <= |ks|
  {
    if ks == [] then 0 else Count(ks[..|ks| - 1], k) + (if ks[|ks| - 1] == k then 1 else 0)
  }

  /** How many writes and creations each prefix of the full script holds. */
  lemma {:induction false} ScriptCounts(n: nat)
    requires n <= |FullScript|
    ensures Count(FullScript[..n], KCreate) == (if n >= 7 then 1 else 0)
    ensures Count(FullScript[..n], KWrite) == (if n >= 8 then 2 else if n >= 6 then 1 else 0)
  {
    if n > 0 {
      assert FullScript[..n][..n - 1] == FullScript[..n - 1];
      ScriptCounts(n - 1);
    }
  }

  /** Each request makes at most one creation attempt and at most two writes;
      a creation happens exactly when the first write failed with a missing-topic
      error, and a second write exactly when that creation succeeded. */
  lemma BoundedRecovery(sc: Scenario, brokerUrl: string, scheme: AuthScheme, calls: seq<Call>)
    requires FollowsPipeline(sc, brokerUrl, scheme, calls)
    ensures Count(Kinds(calls), KCreate) <= 1
    ensures Count(Kinds(calls), KWrite) <= 2
    ensures Count(Kinds(calls), KCreate) == 1 <==> TopicMissing(sc)
    ensures Count(Kinds(calls), KWrite) == 2 <==> TopicCreated(sc)
  {
    FollowsPipelineKinds(sc, brokerUrl, scheme, calls);
    ScriptCounts(CallsMade(OutcomeOf(sc)));
    OutcomeConditions(sc);
  }

  /** No topic lookup, write or creation happens unless authentication was
      called, for this stream, earlier in the trace and succeeded. */
  lemma AuthGuardsTopic(sc: Scenario, brokerUrl: string, scheme: AuthScheme, calls: seq<Call>, i: int)
    requires FollowsPipeline(sc, brokerUrl, scheme, calls)
    requires 0 <= i < |calls| && KindOf(calls[i]) in {KLookup, KWrite, KCreate}
    ensures PassesAuth(sc)
    ensures 2 < i && KindOf(calls[2]) == KAuth
    ensures calls[2] == (if scheme == HttpRequestAuth
                         then Authenticate(sc.decoded.value.streamId, WritePermission)
                         else ValidateBasicAuth(sc.authHeader, sc.decoded.value.streamId))
  {
  }

  /** The lookup asks for the decoded stream, and a creation targets the topic
      that lookup resolved, on the given broker, and only after the first write
      failed with a missing-topic error. */
  lemma TopicCallsUseResolvedTopic(sc: Scenario, brokerUrl: string, scheme: AuthScheme, calls: seq<Call>, i: int)
    requires FollowsPipeline(sc, brokerUrl, scheme, calls)
    requires 0 <= i < |calls|
    ensures calls[i].GetStreamTopic? ==> PassesAuth(sc) && calls[i] == GetStreamTopic(sc.decoded.value.streamId)
    ensures calls[i].CreateTopicIfNotExists? ==>
      TopicMissing(sc) && calls[i] == CreateTopicIfNotExists(brokerUrl, sc.topic.value)
  {
  }

  /** Every write sends the same message: the resolved topic, the request id as
      key and the serialised request as value; so the retry repeats the first write. */
  lemma WritesIdentical(sc: Scenario, brokerUrl: string, scheme: AuthScheme, calls: seq<Call>, i: int, j: int)
    requires FollowsPipeline(sc, brokerUrl, scheme, calls) && RequestPresentAtWrite(sc)
    requires 0 <= i < |calls| && 0 <= j < |calls| && calls[i].WriteMessages? && calls[j].WriteMessages?
    ensures PassesMarshal(sc)
    ensures calls[i] == calls[j]
    ensures calls[i].msg == Message(sc.topic.value, sc.decoded.value.request.value.requestId, sc.marshalled.value)
  {
  }

  /** The early exits: 405 consults nothing, 503 only the readiness gate, 400
      only readiness and the decoder, 401 nothing after authentication, 404 no
      writer and no marshaller. */
  lemma EarlyExits(sc: Scenario, brokerUrl: string, scheme: AuthScheme, calls: seq<Call>)
    requires FollowsPipeline(sc, brokerUrl, scheme, calls)
    ensures !IsPost(sc) ==> calls == []
    ensures OutcomeOf(sc) == Unavailable ==> calls == [IsReady]
    ensures OutcomeOf(sc).BadRequest? ==> calls == [IsReady, DecodeBody]
    ensures OutcomeOf(sc) == Unauthorized ==> |calls| == 3 && KindOf(calls[2]) == KAuth
    ensures OutcomeOf(sc) == StreamNotFound ==> |calls| == 4 && calls[3] == GetStreamTopic(sc.decoded.value.streamId)
  {
    if CallsMade(OutcomeOf(sc)) <= 2 {
      assert forall i :: 0 <= i < |calls| ==> calls[i] == [IsReady, DecodeBody][i];
    }
  }

  /** The deferred request metric is always the last metric and records the
      status code the reply actually carries. */
  lemma RecordedStatusIsSent(sc: Scenario)
    ensures var ms := MetricsFor(sc);
      ms[|ms| - 1] == IngestRecorded(sc.httpMethod, IngestPath, ReplyFor(OutcomeOf(sc)).status)
      && forall i :: 0 <= i < |ms| - 1 ==> !ms[i].IngestRecorded?
  {
  }

  /** "Message published" is metered exactly on the 202 path, for the request's stream. */
  lemma PublishedOnlyOnAccept(sc: Scenario, sid: string)
    ensures MessagePublished(sid) in MetricsFor(sc) <==>
      ReplyFor(OutcomeOf(sc)).status == StatusAccepted && sid == DecodedStreamId(sc)
  {
  }

  /** An authentication failure is metered exactly when the reply is 401. */
  lemma AuthFailureMetered(sc: Scenario)
    ensures AuthFailure(ServiceName, AuthFailedReason) in MetricsFor(sc) <==>
      ReplyFor(OutcomeOf(sc)).status == StatusUnauthorized
  {
  }

  /** A publish error is metered exactly when a broker step failed, with the
      label of the step; a serialisation failure (also 500) meters none. */
  lemma PublishErrorMetered(sc: Scenario, sid: string, errorLabel: string)
    ensures PublishError(sid, errorLabel) in MetricsFor(sc) <==>
      && PassesMarshal(sc) && sc.firstWrite.Error? && sid == DecodedStreamId(sc)
      && errorLabel == (if !TopicMissing(sc) then LabelWriteFailed
                        else if !TopicCreated(sc) then LabelCreationFailed
                        else LabelRetryFailed)
      && !OutcomeOf(sc).Published?
    ensures OutcomeOf(sc) == SerializeFailed ==> |MetricsFor(sc)| == 1
  {
  }
}
