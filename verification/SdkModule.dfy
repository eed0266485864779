/** The endpoint half of the hub protocol: the SDK's Module object. */
module SdkModule {
  import opened Prelude
  import opened HubModel
  import opened Network
  import opened Correlation

  class Module {
    const moduleId: ModuleId
    const capabilities: seq<Capability>
    var totalRequests: nat
    var totalErrors: nat
    var messageHandlers: set<CorrId>  // calls waiting for a response

    constructor (id: ModuleId, caps: seq<Capability>)
      ensures moduleId == id && capabilities == caps
      ensures totalRequests == 0 && totalErrors == 0 && messageHandlers == {}
    {
      moduleId, capabilities, totalRequests, totalErrors, messageHandlers := id, caps, 0, 0, {};
    }

    /** A RESPONSE if served, else an ERROR: from this module to the requester, under the request's correlation id. */
    ghost predicate Answers(reply: Message, request: Message, served: bool) {
      && (reply.kind == Response <==> served) && (reply.kind == Error <==> !served)
      && reply.wellFormed && reply.source == Some(moduleId) && reply.target == request.source
      && reply.corr == request.corr && (served ==> reply.action == request.action)
    }

    /**
     _handle_message: what goes back on the socket.  handlerOk says whether the action's
     handler returns; a request for an action the module does not have fails in any case.
     No kind of message touches messageHandlers, so no waiting call is ever answered.
     */
    method HandleMessage(msg: Message, handlerOk: bool) returns (reply: Option<Message>)
      modifies this`totalRequests, this`totalErrors
      ensures reply == EndpointReply(moduleId, msg,
        if handlerOk && msg.action.Some? && msg.action.value in capabilities then Replied else Errored)
      ensures msg.kind == Request ==>
        reply.Some? && Answers(reply.value, msg, handlerOk && msg.action.Some? && msg.action.value in capabilities)
      ensures msg.kind == Heartbeat ==> reply == Some(Message(false, HeartbeatAck, None, None, None, {}, None, None))
      ensures msg.kind == Query ==> reply == Some(Message(false, CapabilityResponse, None, None, None, {}, None, None))
      ensures msg.kind !in {Request, Heartbeat, Query} ==> reply == None
      ensures totalRequests == old(totalRequests) + (if msg.kind == Request then 1 else 0)
      ensures totalErrors == old(totalErrors) +
        if msg.kind == Request && !(handlerOk && msg.action.Some? && msg.action.value in capabilities) then 1 else 0
    {
      match msg.kind {
        case Request => reply := HandleRequest(msg, handlerOk);
        case Heartbeat => reply := Some(ACK);
        case Query => reply := Some(CAPABILITIES);
        case _ => reply := None;  // "Unknown message type"
      }
    }

    /** _handle_request. */
    method HandleRequest(msg: Message, handlerOk: bool) returns (reply: Option<Message>)
      requires msg.kind == Request
      modifies this`totalRequests, this`totalErrors
      ensures reply == EndpointReply(moduleId, msg,
        if handlerOk && msg.action.Some? && msg.action.value in capabilities then Replied else Errored)
      ensures totalRequests == old(totalRequests) + 1
      ensures reply.Some? &&
        Answers(reply.value, msg, handlerOk && msg.action.Some? && msg.action.value in capabilities)
      ensures totalErrors == old(totalErrors) +
        if handlerOk && msg.action.Some? && msg.action.value in capabilities then 0 else 1
    {
      totalRequests := totalRequests + 1;
      var found := false;
      for i := 0 to |capabilities|
        invariant found == (msg.action.Some? && msg.action.value in capabilities[..i])
      {
        if Some(capabilities[i]) == msg.action {
          found := true;
          break;
        }
      }
      if found && handlerOk {
        reply := Some(Message(true, Response, Some(moduleId), msg.source, msg.action, {}, msg.corr, None));
      } else {
        totalErrors := totalErrors + 1;
        reply := Some(Message(true, Error, Some(moduleId), msg.source, None, {}, msg.corr, None));
      }
    }

    /** The request call_module sends, for a correlation id drawn by uuid4. */
    method CallModule(target: ModuleId, action: Capability, corr: CorrId) returns (msg: Message)
      modifies this`messageHandlers
      ensures messageHandlers == old(messageHandlers) + {corr}
      ensures msg == Message(true, Request, Some(moduleId), Some(target), Some(action), {}, Some(corr), None)
      ensures forall s: Net :: moduleId != "" && corr !in s.issued ==> Disciplined(s, Emit(moduleId, msg))
    {
      messageHandlers := messageHandlers + {corr};
      msg := Message(true, Request, Some(moduleId), Some(target), Some(action), {}, Some(corr), None);
    }

    /** The finally block of call_module; the future is never resolved, so it runs on the timeout. */
    method CallTimedOut(corr: CorrId)
      modifies this`messageHandlers
      ensures messageHandlers == old(messageHandlers) - {corr}
    {
      if corr in messageHandlers {
        messageHandlers := messageHandlers - {corr};
      }
    }
  }
}
