/**
 * MoltbotCLIClient and LocalProxy as classes: the client's executable cache,
 * the agent commands it hands to the spawner, and the proxy's message counter are
 * fields the methods update. Each method is proved to do what the matching
 * function of AgentRelay says, so the lemmas there hold of these objects.
 */
module Relay {
  import opened Wrappers
  import opened JsonValue
  import opened JsonEncode
  import opened AgentRelay
  import Text

  class MoltbotCLIClient {
    const hasUi: bool
    var cachedExecutable: Option<string>
    var launches: seq<seq<string>>   // the argv of every spawn attempted, in order, including one that raised

    constructor(hasUi: bool)
      ensures this.hasUi == hasUi && cachedExecutable == None && launches == []
    {
      this.hasUi := hasUi;
      cachedExecutable := None;
      launches := [];
    }

    /** _detect_executable: the cache, then PATH in name order, then the fixed locations; a hit is cached. */
    method DetectExecutable(h: Host) returns (exe: Option<string>)
      modifies this
      ensures Detection(exe, cachedExecutable) == Detect(old(cachedExecutable), h)
      ensures launches == old(launches)
    {
      if cachedExecutable.Some? {
        return cachedExecutable;
      }
      var i := 0;
      while i < |Names|
        invariant 0 <= i <= |Names|
        invariant forall j :: 0 <= j < i ==> Names[j] !in h.onPath
      {
        if Names[i] in h.onPath {
          cachedExecutable := Some(Names[i]);
          return Some(Names[i]);
        }
        i := i + 1;
      }
      var paths := FixedPaths(h.home);
      var k := 0;
      while k < |paths|
        invariant 0 <= k <= |paths|
        invariant forall j :: 0 <= j < k ==> paths[j] !in h.executables
      {
        if paths[k] in h.executables {
          cachedExecutable := Some(paths[k]);
          return Some(paths[k]);
        }
        k := k + 1;
      }
      return None;
    }

    /** run_agent: build the params, find the executable, launch the call and map its outcome. */
    method RunAgent(message: Json, userId: Json, metadata: map<string, Json>, w: AgentWorld, showCompound: Json -> string)
      returns (r: Result<Json, string>)
      modifies this
      ensures var a := AgentRelay.RunAgent(old(cachedExecutable), hasUi, message, userId, metadata, w, showCompound);
        r == a.outcome && cachedExecutable == a.cache
        && launches == old(launches) + (if a.launched.Some? then [a.launched.value] else [])
    {
      var paramsJson := ParamsJson(Params(message, userId, metadata, w.runId, showCompound));
      var exe := DetectExecutable(w.host);
      if exe.None? {
        return Ok(ErrorShape(NotFoundMessage));
      }
      var argv := AgentArgv(exe.value, paramsJson);
      if !hasUi && PreviewFault(message).Some? {
        return Err(PreviewFault(message).value);
      }
      launches := launches + [argv];
      r := Ok(MapOutcome(w.exec, w.loads));
    }
  }

  /** The reply loop of handle_line_webhook: each payload's truthy text plus a newline, in order. */
  method AssembleReply(response: Json) returns (r: Result<string, string>)
    ensures r == ReplyText(response)
  {
    var items := PayloadItems(response);
    if items.Err? {
      return Err(items.error);
    }
    var payloads := items.value;
    var reply := "";
    var i := 0;
    while i < |payloads|
      invariant 0 <= i <= |payloads|
      invariant Fold(payloads[i..], reply) == Fold(payloads, "")
    {
      assert payloads[i..][0] == payloads[i] && payloads[i..][1..] == payloads[i + 1..];
      var p := payloads[i];
      if !p.Dict? {
        return Err(NoGetMessage(p));
      }
      var t := Get(p.fields, "text", Null);
      if Truthy(t) {
        if !t.Str? {
          return Err(ConcatMessage(t));
        }
        reply := reply + t.s + "\n";
      }
      i := i + 1;
    }
    assert payloads[i..] == [];
    return Ok(reply);
  }

  class LocalProxy {
    const port: int
    const client: MoltbotCLIClient
    var messageCount: nat

    constructor(port: int, hasUi: bool)
      ensures this.port == port && messageCount == 0
      ensures fresh(client) && client.hasUi == hasUi && client.cachedExecutable == None && client.launches == []
    {
      this.port := port;
      client := new MoltbotCLIClient(hasUi);
      messageCount := 0;
    }

    /**
     * handle_line_webhook: read data, event and message, count the request,
     * route non-text messages away, run the agent on text and turn its result
     * dict into the reply.
     */
    method HandleLineWebhook(body: BodyRead, w: AgentWorld, showCompound: Json -> string) returns (resp: Response)
      modifies this, client
      ensures var h := HandleWebhook(old(client.cachedExecutable), client.hasUi, body, w, showCompound);
        resp == h.response
        && messageCount == old(messageCount) + (if h.counted then 1 else 0)
        && client.cachedExecutable == (if h.run.Some? then h.run.value.cache else old(client.cachedExecutable))
        && client.launches == old(client.launches)
             + (if h.run.Some? && h.run.value.launched.Some? then [h.run.value.launched.value] else [])
    {
      match body {
        case InvalidJson =>
          return ErrorResponse(400, "Invalid JSON");
        case ReadFailed(m) =>
          return ErrorResponse(500, m);
        case Parsed(data) =>
          if !data.Dict? {
            return ErrorResponse(500, NoGetMessage(data));
          }
          var event := Get(data.fields, "event", Dict(map[]));
          if !event.Dict? {
            return ErrorResponse(500, NoGetMessage(event));
          }
          var message := Get(event.fields, "message", Dict(map[]));
          var userId := Get(data.fields, "userId", Null);
          messageCount := messageCount + 1;
          var initials := Initials(userId);
          if initials.Err? {
            return ErrorResponse(500, initials.error);
          }
          var displayName := Get(data.fields, "displayName", initials.value);
          if !message.Dict? {
            return ErrorResponse(500, NoGetMessage(message));
          }
          if Get(message.fields, "type", Null) != Str("text") {
            return Response(200, Dict(map["success" := Bool(true), "reason" := Str(NonTextReason)]));
          }
          var text := Get(message.fields, "text", Str(""));
          var metadata := map["event" := event, "replyToken" := Get(data.fields, "replyToken", Null), "displayName" := displayName];
          var response := client.RunAgent(text, userId, metadata, w, showCompound);
          if response.Err? {
            return ErrorResponse(500, response.error);
          }
          var reply := AssembleReply(response.value);
          if reply.Err? {
            return ErrorResponse(500, reply.error);
          }
          if reply.value != "" {
            resp := Response(200, Dict(map["success" := Bool(true),
                                           "response" := Dict(map["text" := Str(Text.Strip(reply.value)), "raw" := response.value])]));
          } else {
            resp := Response(200, Dict(map["success" := Bool(true), "response" := Null]));
          }
      }
    }

    /** health_check: reports the message counter. */
    function HealthCheck(): (j: Json)
      reads this
      ensures j.Dict? && "message_count" in j.fields && j.fields["message_count"] == Int(messageCount)
      ensures j.Dict? && "status" in j.fields && j.fields["status"] == Str("ok")
    {
      HealthBody(messageCount)
    }
  }
}
