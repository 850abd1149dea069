/** The older copy of the ingest pipeline served by the gateway's own main
    package: the same cascade and recovery step, with the credential check done
    on the Basic authorization header and no metric events. */
module LegacyGateway {
  import opened Pipeline

  /** Serve one /ingest request the way the legacy handler closure does. The
      credential check is a boolean in this copy; the scenario's `auth` oracle
      answers it, `Nil` standing for true. Each `return` is one of the closure's
      early returns. */
  method MakeIngestHandler(brokerUrl: string, sc: Scenario) returns (reply: Reply, calls: seq<Call>)
    requires RequestPresentAtWrite(sc)
    ensures reply == ReplyFor(OutcomeOf(sc))
    ensures FollowsPipeline(sc, brokerUrl, BasicAuthHeader, calls)
  {
    ghost var script := Script(sc, brokerUrl, BasicAuthHeader);
    calls := [];
    if sc.httpMethod != MethodPost {
      reply := HttpError(MsgMethodNotAllowed, StatusMethodNotAllowed);
      assert Answered(sc, brokerUrl, reply, calls);
      return;
    }

    PrefixStep(script, calls, IsReady);
    calls := calls + [IsReady];
    if !sc.ready {
      reply := HttpError(MsgUnavailable, StatusServiceUnavailable);
      assert Answered(sc, brokerUrl, reply, calls);
      return;
    }

    PrefixStep(script, calls, DecodeBody);
    calls := calls + [DecodeBody];
    if sc.decoded.Failed? {
      reply := HttpError(MsgInvalidRequest + sc.decoded.msg, StatusBadRequest);
      assert Answered(sc, brokerUrl, reply, calls);
      return;
    }
    var req := sc.decoded.value;

    var authHeader := sc.authHeader;
    PrefixStep(script, calls, ValidateBasicAuth(authHeader, req.streamId));
    calls := calls + [ValidateBasicAuth(authHeader, req.streamId)];
    if !sc.auth.Nil? {
      reply := HttpError(MsgUnauthorized, StatusUnauthorized);
      assert Answered(sc, brokerUrl, reply, calls);
      return;
    }

    PrefixStep(script, calls, GetStreamTopic(req.streamId));
    calls := calls + [GetStreamTopic(req.streamId)];
    if sc.topic.Failed? {
      reply := HttpError(MsgStreamNotFound, StatusNotFound);
      assert Answered(sc, brokerUrl, reply, calls);
      return;
    }
    var topic := sc.topic.value;

    PrefixStep(script, calls, MarshalRequest(req.request));
    calls := calls + [MarshalRequest(req.request)];
    if sc.marshalled.Failed? {
      reply := HttpError(MsgSerializeFailed, StatusInternalServerError);
      assert Answered(sc, brokerUrl, reply, calls);
      return;
    }
    var messageData := sc.marshalled.value;

    var msg := Message(topic, req.request.value.requestId, messageData);
    PrefixStep(script, calls, WriteMessages(msg));
    calls := calls + [WriteMessages(msg)];
    var err := sc.firstWrite;
    if err.Error? {
      var errStr := err.msg;
      if IsMissingTopicError(errStr) {
        PrefixStep(script, calls, CreateTopicIfNotExists(brokerUrl, topic));
        calls := calls + [CreateTopicIfNotExists(brokerUrl, topic)];
        if sc.create.Error? {
          reply := HttpError(MsgCreationFailed + sc.create.msg, StatusInternalServerError);
          assert Answered(sc, brokerUrl, reply, calls);
          return;
        }
        PrefixStep(script, calls, WriteMessages(msg));
        calls := calls + [WriteMessages(msg)];
        err := sc.retryWrite;
        if err.Error? {
          reply := HttpError(MsgIngestFailed + err.msg, StatusInternalServerError);
          assert Answered(sc, brokerUrl, reply, calls);
          return;
        }
      } else {
        reply := HttpError(MsgIngestFailed + err.msg, StatusInternalServerError);
        assert Answered(sc, brokerUrl, reply, calls);
        return;
      }
    }

    reply := Reply(StatusAccepted, BodyOK);
    assert Answered(sc, brokerUrl, reply, calls);
  }

  /** The reply and the calls are those the reference decision prescribes. */
  ghost predicate Answered(sc: Scenario, brokerUrl: string, reply: Reply, calls: seq<Call>) {
    reply == ReplyFor(OutcomeOf(sc)) && FollowsPipeline(sc, brokerUrl, BasicAuthHeader, calls)
  }
}
