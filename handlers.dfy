/** The current /ingest handler: the request cascade with its status code held
    in a local that every branch reassigns, metric events on the failure and
    success paths, and the deferred request metric that reads the final status. */
module IngestHandlers {
  import opened Pipeline
  import opened GatewayServer

  /** Serve one /ingest request. The labelled block stands for the body of the
      handler closure, a `break` for its early `return`, and the statement after
      the block for the deferred metric that runs on every return path. */
  method IngestHandler(s: IngestGatewayServer, sc: Scenario) returns (reply: Reply, calls: seq<Call>, metrics: seq<Metric>)
    requires RequestPresentAtWrite(sc)
    ensures reply == ReplyFor(OutcomeOf(sc))
    ensures FollowsPipeline(sc, s.brokerUrl, HttpRequestAuth, calls)
    ensures metrics == MetricsFor(sc)
  {
    var statusCode := StatusAccepted;
    var streamId := "";
    calls, metrics := [], [];
    reply := Reply(StatusAccepted, BodyOK);
    ghost var script := Script(sc, s.brokerUrl, HttpRequestAuth);

    label serve: {
      if sc.httpMethod != MethodPost {
        statusCode := StatusMethodNotAllowed;
        reply := HttpError(MsgMethodNotAllowed, statusCode);
        assert Settled(sc, s.brokerUrl, reply, calls, metrics);
        break serve;
      }

      PrefixStep(script, calls, IsReady);
      calls := calls + [IsReady];
      if !sc.ready {
        statusCode := StatusServiceUnavailable;
        reply := HttpError(MsgUnavailable, statusCode);
        assert Settled(sc, s.brokerUrl, reply, calls, metrics);
        break serve;
      }

      PrefixStep(script, calls, DecodeBody);
      calls := calls + [DecodeBody];
      if sc.decoded.Failed? {
        statusCode := StatusBadRequest;
        reply := HttpError(MsgInvalidRequest + sc.decoded.msg, statusCode);
        assert Settled(sc, s.brokerUrl, reply, calls, metrics);
        break serve;
      }
      var req := sc.decoded.value;
      streamId := req.streamId;

      PrefixStep(script, calls, Authenticate(req.streamId, WritePermission));
      calls := calls + [Authenticate(req.streamId, WritePermission)];
      if sc.auth.Error? {
        statusCode := StatusUnauthorized;
        metrics := metrics + [AuthFailure(ServiceName, AuthFailedReason)];
        reply := HttpError(MsgUnauthorized, statusCode);
        assert Settled(sc, s.brokerUrl, reply, calls, metrics);
        break serve;
      }

      PrefixStep(script, calls, GetStreamTopic(req.streamId));
      calls := calls + [GetStreamTopic(req.streamId)];
      if sc.topic.Failed? {
        statusCode := StatusNotFound;
        reply := HttpError(MsgStreamNotFound, statusCode);
        assert Settled(sc, s.brokerUrl, reply, calls, metrics);
        break serve;
      }
      var topic := sc.topic.value;

      PrefixStep(script, calls, MarshalRequest(req.request));
      calls := calls + [MarshalRequest(req.request)];
      if sc.marshalled.Failed? {
        statusCode := StatusInternalServerError;
        reply := HttpError(MsgSerializeFailed, statusCode);
        assert Settled(sc, s.brokerUrl, reply, calls, metrics);
        break serve;
      }
      var messageData := sc.marshalled.value;

      var msg := Message(topic, req.request.value.requestId, messageData);
      statusCode, reply, calls, metrics := Publish(s, sc, streamId, topic, msg, calls);
      assert Settled(sc, s.brokerUrl, reply, calls, metrics);
    }

    assert Settled(sc, s.brokerUrl, reply, calls, metrics) && reply.status == statusCode;
    metrics := metrics + [IngestRecorded(sc.httpMethod, IngestPath, statusCode)];
  }

  /** The reply, the calls and the outcome's metrics are those the reference
      decision prescribes. */
  ghost predicate Settled(sc: Scenario, brokerUrl: string, reply: Reply, calls: seq<Call>, metrics: seq<Metric>) {
    var out := OutcomeOf(sc);
    && reply == ReplyFor(out)
    && calls == Script(sc, brokerUrl, HttpRequestAuth)[..CallsMade(out)]
    && metrics == OutcomeMetrics(out, DecodedStreamId(sc))
  }

  /** The broker half of the handler, from the first write to the success reply:
      the write, and on a missing-topic error the creation and the one retry.
      It extends the calls made so far and returns the status code the handler's
      local ends up holding, the reply, and the metrics emitted before the
      deferred one (none are emitted before this point on this path). */
  method Publish(s: IngestGatewayServer, sc: Scenario, streamId: string, topic: string, msg: Message, callsSoFar: seq<Call>)
    returns (statusCode: int, reply: Reply, calls: seq<Call>, metrics: seq<Metric>)
    requires PassesMarshal(sc) && RequestPresentAtWrite(sc)
    requires streamId == DecodedStreamId(sc) && topic == ResolvedTopic(sc) && msg == MessageOf(sc)
    requires callsSoFar == Script(sc, s.brokerUrl, HttpRequestAuth)[..5]
    ensures statusCode == reply.status
    ensures Settled(sc, s.brokerUrl, reply, calls, metrics)
  {
    ghost var script := Script(sc, s.brokerUrl, HttpRequestAuth);
    PrefixStep(script, callsSoFar, WriteMessages(msg));
    calls := callsSoFar + [WriteMessages(msg)];
    var err := sc.firstWrite;
    if err.Error? {
      var errStr := err.msg;
      if IsMissingTopicError(errStr) {
        PrefixStep(script, calls, CreateTopicIfNotExists(s.brokerUrl, topic));
        calls := calls + [CreateTopicIfNotExists(s.brokerUrl, topic)];
        if sc.create.Error? {
          statusCode := StatusInternalServerError;
          metrics := [PublishError(streamId, LabelCreationFailed)];
          reply := HttpError(MsgCreationFailed + sc.create.msg, statusCode);
          return;
        }
        PrefixStep(script, calls, WriteMessages(msg));
        calls := calls + [WriteMessages(msg)];
        err := sc.retryWrite;
        if err.Error? {
          statusCode := StatusInternalServerError;
          metrics := [PublishError(streamId, LabelRetryFailed)];
          reply := HttpError(MsgIngestFailed + err.msg, statusCode);
          return;
        }
      } else {
        statusCode := StatusInternalServerError;
        metrics := [PublishError(streamId, LabelWriteFailed)];
        reply := HttpError(MsgIngestFailed + err.msg, statusCode);
        return;
      }
    }

    statusCode := StatusAccepted;
    metrics := [MessagePublished(streamId)];
    reply := Reply(StatusAccepted, BodyOK);
  }
}
