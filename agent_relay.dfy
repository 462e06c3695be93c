/**
 * The agent relay's decisions as pure functions: finding the agent's
 * executable, building the agent call, mapping its outcome to a result
 * dict, assembling the reply text and routing a LINE webhook request.
 * The classes in local_proxy.dfy are proved to follow these functions.
 *
 * The world is an input: which names are on PATH, which files exist and are
 * executable, the home directory, the run id uuid4 would produce, how the
 * subprocess ends and what json.loads makes of its output. Python's str()
 * of a list or a dict (whose key order a map does not keep) is a parameter,
 * showCompound; every other rendering is written out.
 */
module AgentRelay {
  import opened Wrappers
  import opened JsonValue
  import opened JsonEncode
  import Text

  // ---- executable discovery ----

  /** The program names looked up on PATH, in order. */
  const Names: seq<string> := ["clawdbot", "openclaw", "moltbot"]

  const NotFoundMessage := "Moltbot/OpenClaw executable not found via CLI"
  const InvalidOutputMessage := "Invalid CLI output"

  /** What the lookups see: names shutil.which finds, paths that exist and are executable, Path.home(). */
  datatype Host = Host(onPath: set<string>, executables: set<string>, home: string)

  /** str(home / rel) for the normalised directory Path.home() returns. */
  function UnderHome(home: string, rel: string): string
  {
    if home == "" then rel
    else if home[|home| - 1] == '/' then home + rel
    else home + "/" + rel
  }

  /** The nine fixed locations tried when no name is on PATH, in order. */
  function FixedPaths(home: string): (paths: seq<string>)
    ensures |paths| == 9
  {
    [UnderHome(home, "go/bin/clawdbot"), UnderHome(home, "go/bin/openclaw"), UnderHome(home, "go/bin/moltbot"),
     "/usr/local/bin/clawdbot", "/usr/local/bin/openclaw", "/usr/local/bin/moltbot",
     "/opt/homebrew/bin/clawdbot", "/opt/homebrew/bin/openclaw", "/opt/homebrew/bin/moltbot"]
  }

  /** The index of the first candidate that is present, if any. */
  function FirstIn(cands: seq<string>, present: set<string>): (r: Option<nat>)
    ensures r.Some? ==> r.value < |cands| && cands[r.value] in present
    ensures r.Some? ==> forall j :: 0 <= j < r.value ==> cands[j] !in present
    ensures r.None? ==> forall j :: 0 <= j < |cands| ==> cands[j] !in present
    decreases |cands|
  {
    if cands == [] then None
    else if cands[0] in present then Some(0)
    else match FirstIn(cands[1..], present)
      case None => None
      case Some(k) => Some(k + 1)
  }

  /** The search of _detect_executable without its cache: PATH first, then the fixed locations. */
  function Locate(h: Host): Option<string>
  {
    match FirstIn(Names, h.onPath)
    case Some(i) => Some(Names[i])
    case None =>
      match FirstIn(FixedPaths(h.home), h.executables)
      case Some(k) => Some(FixedPaths(h.home)[k])
      case None => None
  }

  datatype Detection = Detection(found: Option<string>, cache: Option<string>)

  /** _detect_executable: the cached value if there is one, else the search, whose hit (and only a hit) is cached. */
  function Detect(cache: Option<string>, h: Host): Detection
  {
    if cache.Some? then Detection(cache, cache)
    else
      var f := Locate(h);
      if f.Some? then Detection(f, f) else Detection(None, cache)
  }

  /**
   * The search order: the first name on PATH wins; failing that the first of
   * the nine locations that exists and is executable; None only when neither
   * list has a hit.
   */
  lemma LocateOrder(h: Host)
    ensures forall i :: 0 <= i < |Names| && Names[i] in h.onPath ==>
      exists j :: 0 <= j <= i && Locate(h) == Some(Names[j]) && Names[j] in h.onPath
    ensures (forall i :: 0 <= i < |Names| ==> Names[i] !in h.onPath) ==>
      match Locate(h)
      case Some(p) => exists k :: 0 <= k < 9 && p == FixedPaths(h.home)[k] && p in h.executables
                        && forall j :: 0 <= j < k ==> FixedPaths(h.home)[j] !in h.executables
      case None => forall k :: 0 <= k < 9 ==> FixedPaths(h.home)[k] !in h.executables
  {
  }

  /**
   * Memoisation of hits only: once a search has found something, later calls
   * return it whatever the host looks like; after a miss the next call
   * searches again.
   */
  lemma DetectMemoisesHits(h1: Host, h2: Host)
    ensures var d1 := Detect(None, h1);
      var d2 := Detect(d1.cache, h2);
      d1.found == Locate(h1)
      && (d1.found.Some? ==> d2.found == d1.found && d2.cache == d1.cache)
      && (d1.found.None? ==> d1.cache == None && d2.found == Locate(h2))
  {
  }

  /** Every cached value is one of the twelve candidates. */
  lemma DetectFindsCandidate(cache: Option<string>, h: Host)
    requires cache.Some? ==> cache.value in Names || cache.value in FixedPaths(h.home)
    ensures var d := Detect(cache, h);
      d.found == d.cache
      || (cache.None? && d.found.None?)
    ensures var d := Detect(cache, h);
      d.found.Some? ==> d.found.value in Names || d.found.value in FixedPaths(h.home)
  {
  }

  // ---- building the agent call ----

  /** str(v) inside an f-string; lists and dicts are rendered by showCompound. */
  function Show(v: Json, showCompound: Json -> string): string
  {
    if IsScalar(v) then Render(v) else showCompound(v)
  }

  /** The session id: "line:" + the user id. */
  function SessionKey(userId: Json, showCompound: Json -> string): string
  {
    "line:" + Show(userId, showCompound)
  }

  /** Distinct LINE users (string ids) get distinct sessions. */
  lemma SessionKeyInjective(u1: string, u2: string, showCompound: Json -> string)
    requires u1 != u2
    ensures SessionKey(Str(u1), showCompound) != SessionKey(Str(u2), showCompound)
  {
    var k1 := SessionKey(Str(u1), showCompound);
    var k2 := SessionKey(Str(u2), showCompound);
    assert k1[5..] == u1 && k2[5..] == u2;
  }

  /** (metadata or {}).get('displayName', 'User'). */
  function DisplayName(metadata: map<string, Json>): Json
  {
    Get(metadata, "displayName", Str("User"))
  }

  /** The message handed to the agent: the sender's display name, then the text. */
  function Contextualize(displayName: Json, message: Json, showCompound: Json -> string): string
  {
    "[LINE User: " + Show(displayName, showCompound) + "] " + Show(message, showCompound)
  }

  function AgentArgv(exe: string, paramsJson: string): (argv: seq<string>)
    ensures |argv| == 10 && argv[0] == exe && argv[5] == paramsJson
  {
    [exe, "gateway", "call", "agent", "--params", paramsJson, "--expect-final", "--timeout", "120000", "--json"]
  }

  /** The failure shape of run_agent. */
  function ErrorShape(message: string): Json
  {
    Dict(map["ok" := Bool(false), "error" := Str(message)])
  }

  predicate IsErrorShape(v: Json)
  {
    v.Dict? && v.fields.Keys == {"ok", "error"} && v.fields["ok"] == Bool(false) && v.fields["error"].Str?
  }

  /** How the agent subprocess ended: creating it raised, or it exited with a code and decoded output. */
  datatype ExecOutcome =
    | Raised(message: string)
    | Finished(code: int, stdout: string, stderr: string)

  /** The outside world of one run_agent call. */
  datatype AgentWorld = AgentWorld(host: Host, runId: string, exec: ExecOutcome, loads: string -> Option<Json>)

  /** The try block of run_agent: a result dict, never an exception. */
  function MapOutcome(exec: ExecOutcome, loads: string -> Option<Json>): Json
  {
    match exec
    case Raised(m) => ErrorShape(m)
    case Finished(code, out, err) =>
      if code != 0 then ErrorShape(Text.Strip(err))
      else match loads(Text.Strip(out))
        case None => ErrorShape(InvalidOutputMessage)
        case Some(v) => v
  }

  /** The exception raised by message[:30] in the console preview, if the message cannot be sliced (Python 3.11). */
  function PreviewFault(message: Json): Option<string>
  {
    match message
    case Str(_) => None
    case List(_) => None
    case Dict(_) => Some("unhashable type: 'slice'")
    case _ => Some(NotSubscriptableMessage(message))
  }

  /**
   * One run_agent call: the new cache, the argv handed to create_subprocess_exec
   * (if the call got that far, whether or not the spawn then raised), and the
   * dict returned or the message raised.
   */
  datatype AgentRun = AgentRun(cache: Option<string>, launched: Option<seq<string>>, outcome: Result<Json, string>)

  function Params(message: Json, userId: Json, metadata: map<string, Json>, runId: string, showCompound: Json -> string): AgentParams
  {
    AgentParams(Contextualize(DisplayName(metadata), message, showCompound), SessionKey(userId, showCompound), runId)
  }

  function RunAgent(cache: Option<string>, hasUi: bool, message: Json, userId: Json, metadata: map<string, Json>,
                    w: AgentWorld, showCompound: Json -> string): AgentRun
  {
    var paramsJson := ParamsJson(Params(message, userId, metadata, w.runId, showCompound));
    var d := Detect(cache, w.host);
    if d.found.None? then AgentRun(d.cache, None, Ok(ErrorShape(NotFoundMessage)))
    else if !hasUi && PreviewFault(message).Some? then AgentRun(d.cache, None, Err(PreviewFault(message).value))
    else AgentRun(d.cache, Some(AgentArgv(d.found.value, paramsJson)), Ok(MapOutcome(w.exec, w.loads)))
  }

  /** The parameters a launched agent call received, as the agent reads them back from its argv. */
  function SentParams(run: AgentRun): Option<AgentParams>
  {
    if run.launched.Some? && |run.launched.value| == 10 then ParseParams(run.launched.value[5]) else None
  }

  /**
   * What the agent receives: the detected executable with the fixed
   * arguments, and a --params document that decodes to the contextualised
   * message, "line:" + user id and the run id.
   */
  lemma RunAgentCall(cache: Option<string>, hasUi: bool, message: Json, userId: Json, metadata: map<string, Json>,
                     w: AgentWorld, showCompound: Json -> string)
    ensures var r := RunAgent(cache, hasUi, message, userId, metadata, w, showCompound);
      r.launched.Some? ==>
        var argv := r.launched.value;
        Detect(cache, w.host).found == Some(argv[0])
        && argv[1..5] == ["gateway", "call", "agent", "--params"]
        && argv[6..] == ["--expect-final", "--timeout", "120000", "--json"]
        && SentParams(r) == Some(AgentParams(
             "[LINE User: " + Show(DisplayName(metadata), showCompound) + "] " + Show(message, showCompound),
             "line:" + Show(userId, showCompound),
             w.runId))
  {
    var r := RunAgent(cache, hasUi, message, userId, metadata, w, showCompound);
    if r.launched.Some? {
      var p := Params(message, userId, metadata, w.runId, showCompound);
      var argv := AgentArgv(Detect(cache, w.host).found.value, ParamsJson(p));
      assert r.launched.value == argv;
      assert argv[1..5] == ["gateway", "call", "agent", "--params"];
      assert argv[6..] == ["--expect-final", "--timeout", "120000", "--json"];
      ParamsRoundTrip(p);
    }
  }

  /** Without an executable nothing is spawned and the not-found dict comes back. */
  lemma RunAgentNotFound(cache: Option<string>, hasUi: bool, message: Json, userId: Json, metadata: map<string, Json>,
                         w: AgentWorld, showCompound: Json -> string)
    requires cache.None? && Locate(w.host).None?
    ensures var r := RunAgent(cache, hasUi, message, userId, metadata, w, showCompound);
      r.launched.None? && r.cache.None? && r.outcome == Ok(ErrorShape(NotFoundMessage))
  {
  }

  /**
   * run_agent does not raise once past the preview: a launched call returns
   * the agent's parsed output or one of the three failure dicts. Only the
   * console preview of a message that cannot be sliced raises.
   */
  lemma RunAgentOutcomes(cache: Option<string>, hasUi: bool, message: Json, userId: Json, metadata: map<string, Json>,
                         w: AgentWorld, showCompound: Json -> string)
    ensures var r := RunAgent(cache, hasUi, message, userId, metadata, w, showCompound);
      (r.outcome.Err? <==> !hasUi && r.launched.None? && Detect(cache, w.host).found.Some? && PreviewFault(message).Some?)
      && (r.launched.Some? ==>
            r.outcome == Ok(match w.exec
              case Raised(m) => ErrorShape(m)
              case Finished(code, out, err) =>
                if code != 0 then ErrorShape(Text.Strip(err))
                else if w.loads(Text.Strip(out)).None? then ErrorShape(InvalidOutputMessage)
                else w.loads(Text.Strip(out)).value))
    ensures hasUi || message.Str? ==> RunAgent(cache, hasUi, message, userId, metadata, w, showCompound).outcome.Ok?
  {
  }

  lemma ErrorShapeIsClosed(message: string)
    ensures IsErrorShape(ErrorShape(message)) && ErrorShape(message).fields["error"] == Str(message)
  {
  }

  // ---- reply assembly ----

  /** What one payload adds to the reply: an exception, nothing (falsy text), or its text. */
  function Fragment(p: Json): Result<Option<string>, string>
  {
    if !p.Dict? then Err(NoGetMessage(p))
    else
      var t := Get(p.fields, "text", Null);
      if !Truthy(t) then Ok(None)
      else if t.Str? then Ok(Some(t.s))
      else Err(ConcatMessage(t))
  }

  /** The for loop over the payloads, from an accumulated reply onwards. */
  function Fold(items: seq<Json>, acc: string): Result<string, string>
    decreases |items|
  {
    if items == [] then Ok(acc)
    else match Fragment(items[0])
      case Err(e) => Err(e)
      case Ok(None) => Fold(items[1..], acc)
      case Ok(Some(f)) => Fold(items[1..], acc + f + "\n")
  }

  /** response.get('result', {}).get('payloads', []) and what iterating it yields, or the exception. */
  function PayloadItems(response: Json): Result<seq<Json>, string>
  {
    if !response.Dict? then Err(NoGetMessage(response))
    else
      var auth := Get(response.fields, "result", Dict(map[]));
      if !auth.Dict? then Err(NoGetMessage(auth))
      else
        var payloads := Get(auth.fields, "payloads", List([]));
        if !Truthy(payloads) then Ok([])
        else match payloads
          case List(items) => Ok(items)
          // a str yields one-character strs and a dict its str keys: the first .get raises
          case Str(_) => Err(NoGetMessage(Str("")))
          case Dict(_) => Err(NoGetMessage(Str("")))
          case _ => Err(NotIterableMessage(payloads))
  }

  /** reply_text before stripping, or the exception that ends the request. */
  function ReplyText(response: Json): Result<string, string>
  {
    match PayloadItems(response)
    case Err(e) => Err(e)
    case Ok(items) => Fold(items, "")
  }

  /** A reference definition: every fragment followed by a newline. */
  function JoinLines(fs: seq<string>): string
  {
    if fs == [] then "" else fs[0] + "\n" + JoinLines(fs[1..])
  }

  predicate NoFault(items: seq<Json>)
  {
    forall i :: 0 <= i < |items| ==> Fragment(items[i]).Ok?
  }

  /** The non-empty texts of the payloads, in order. */
  function Fragments(items: seq<Json>): seq<string>
    requires NoFault(items)
  {
    if items == [] then []
    else (if Fragment(items[0]).value.Some? then [Fragment(items[0]).value.value] else []) + Fragments(items[1..])
  }

  /** Without a fault the loop builds exactly the fragments, in order, each followed by a newline. */
  lemma {:induction false} FoldJoins(items: seq<Json>, acc: string)
    requires NoFault(items)
    ensures Fold(items, acc) == Ok(acc + JoinLines(Fragments(items)))
    decreases |items|
  {
    if items != [] {
      var acc' := if Fragment(items[0]).value.Some? then acc + Fragment(items[0]).value.value + "\n" else acc;
      assert NoFault(items[1..]) by {
        forall i | 0 <= i < |items| - 1 ensures Fragment(items[1..][i]).Ok? { assert items[1..][i] == items[i + 1]; }
      }
      assert Fragment(items[0]).Ok?;
      assert Fold(items, acc) == Fold(items[1..], acc');
      FoldJoins(items[1..], acc');
      if Fragment(items[0]).value.Some? {
        var f := Fragment(items[0]).value.value;
        assert Fragments(items) == [f] + Fragments(items[1..]);
        assert JoinLines(Fragments(items)) == f + "\n" + JoinLines(Fragments(items[1..]));
        assert acc' + JoinLines(Fragments(items[1..])) == acc + JoinLines(Fragments(items));
      } else {
        assert Fragments(items) == Fragments(items[1..]);
      }
    } else {
      assert acc + "" == acc;
    }
  }

  /** The first payload that raises decides the exception; the payloads after it are never looked at. */
  lemma {:induction false} FoldFault(items: seq<Json>, acc: string, k: nat)
    requires k < |items| && Fragment(items[k]).Err? && NoFault(items[..k])
    ensures Fold(items, acc) == Err(Fragment(items[k]).error)
    decreases k
  {
    if k > 0 {
      assert Fragment(items[0]) == Fragment(items[..k][0]);
      assert items[1..][..k - 1] == items[..k][1..];
      FoldFault(items[1..], if Fragment(items[0]).value.Some? then acc + Fragment(items[0]).value.value + "\n" else acc, k - 1);
    }
  }

  lemma {:induction false} JoinLinesEmpty(fs: seq<string>)
    ensures JoinLines(fs) == "" <==> fs == []
  {
    if fs != [] {
      assert |JoinLines(fs)| >= 1;
    }
  }

  lemma {:induction false} FragmentsEmpty(items: seq<Json>)
    requires NoFault(items)
    ensures Fragments(items) == [] <==> forall i :: 0 <= i < |items| ==> Fragment(items[i]) == Ok(None)
    decreases |items|
  {
    if items != [] {
      FragmentsEmpty(items[1..]);
      forall i | 1 <= i < |items| ensures Fragment(items[i]) == Fragment(items[1..][i - 1]) { }
    }
  }

  /** The reply is empty exactly when no payload has a non-empty text: the emptiness test looks before stripping. */
  lemma ReplyEmptyIffNoText(items: seq<Json>)
    requires NoFault(items)
    ensures Fold(items, "").Ok?
    ensures Fold(items, "").value == "" <==> forall i :: 0 <= i < |items| ==> Fragment(items[i]) == Ok(None)
  {
    FoldJoins(items, "");
    JoinLinesEmpty(Fragments(items));
    FragmentsEmpty(items);
  }

  /** A failure dict has no result, hence no reply text. */
  lemma ErrorShapeHasNoReply(message: string)
    ensures ReplyText(ErrorShape(message)) == Ok("")
  {
  }

  function TextPayload(t: string): Json
  {
    Dict(map["text" := Str(t)])
  }

  function WithPayloads(items: seq<Json>): Json
  {
    Dict(map["result" := Dict(map["payloads" := List(items)])])
  }

  /** [{text: "a"}, {}, {text: "b"}] gives "a\nb\n": the empty payload adds nothing. */
  lemma ReplyExample()
    ensures ReplyText(WithPayloads([TextPayload("a"), Dict(map[]), TextPayload("b")])) == Ok("a\nb\n")
  {
    var items := [TextPayload("a"), Dict(map[]), TextPayload("b")];
    var last := [TextPayload("b")];
    assert Fold(last, "a\n") == Ok("a\nb\n") by {
      assert Fragment(last[0]) == Ok(Some("b"));
      assert last[1..] == [];
      assert "a\n" + "b" + "\n" == "a\nb\n";
    }
    assert Fold(items[1..], "a\n") == Fold(last, "a\n") by {
      assert Fragment(items[1]) == Ok(None);
      assert items[1..][1..] == last;
    }
    assert Fold(items, "") == Fold(items[1..], "a\n") by {
      assert Fragment(items[0]) == Ok(Some("a"));
      assert "" + "a" + "\n" == "a\n";
    }
    assert PayloadItems(WithPayloads(items)) == Ok(items);
  }

  /** The reply sent back is the assembled text stripped: the trailing newline goes. */
  lemma ReplyStripExample()
    ensures Text.Strip("a\nb\n") == "a\nb"
  {
    var s := "a\nb\n";
    assert Text.TrimLeft(s) == s by {
      assert !Text.IsSpace(s[0]);
    }
    assert Text.TrimRight(s) == Text.TrimRight(s[..3]) by {
      assert Text.IsSpace(s[3]);
    }
    assert Text.TrimRight(s[..3]) == "a\nb" by {
      assert s[..3] == "a\nb";
      assert !Text.IsSpace(s[2]);
    }
  }

  // ---- the webhook ----

  /** What request.json() gave: a document, a JSONDecodeError, or another exception. */
  datatype BodyRead = Parsed(data: Json) | InvalidJson | ReadFailed(message: string)

  datatype Response = Response(status: int, body: Json)

  /** One webhook request: the response, whether the message counter moved, and the agent call made, if any. */
  datatype Handled = Handled(response: Response, counted: bool, run: Option<AgentRun>)

  const NonTextReason := "Non-text message not yet supported"

  function ErrorResponse(status: int, message: string): Response
  {
    Response(status, Dict(map["error" := Str(message)]))
  }

  /** user_id[:8] if user_id else "Unknown", or the exception the slice raises (Python 3.11). */
  function Initials(userId: Json): Result<Json, string>
  {
    if !Truthy(userId) then Ok(Str("Unknown"))
    else match userId
      case Str(s) => Ok(Str(if |s| <= 8 then s else s[..8]))
      case List(items) => Ok(List(if |items| <= 8 then items else items[..8]))
      case Dict(_) => Err("unhashable type: 'slice'")
      case _ => Err(NotSubscriptableMessage(userId))
  }

  /** The 200 response built from the agent's result dict, or the 500 of an exception while reading it. */
  function Respond(response: Json): Response
  {
    match ReplyText(response)
    case Err(e) => ErrorResponse(500, e)
    case Ok(rt) =>
      if rt != "" then
        Response(200, Dict(map["success" := Bool(true), "response" := Dict(map["text" := Str(Text.Strip(rt)), "raw" := response])]))
      else Response(200, Dict(map["success" := Bool(true), "response" := Null]))
  }

  function HandleWebhook(cache: Option<string>, hasUi: bool, body: BodyRead, w: AgentWorld, showCompound: Json -> string): Handled
  {
    match body
    case InvalidJson => Handled(ErrorResponse(400, "Invalid JSON"), false, None)
    case ReadFailed(m) => Handled(ErrorResponse(500, m), false, None)
    case Parsed(data) =>
      if !data.Dict? then Handled(ErrorResponse(500, NoGetMessage(data)), false, None)
      else
        var event := Get(data.fields, "event", Dict(map[]));
        if !event.Dict? then Handled(ErrorResponse(500, NoGetMessage(event)), false, None)
        else
          var message := Get(event.fields, "message", Dict(map[]));
          var userId := Get(data.fields, "userId", Null);
          match Initials(userId)
          case Err(e) => Handled(ErrorResponse(500, e), true, None)
          case Ok(initials) =>
            var displayName := Get(data.fields, "displayName", initials);
            if !message.Dict? then Handled(ErrorResponse(500, NoGetMessage(message)), true, None)
            else if Get(message.fields, "type", Null) != Str("text") then
              Handled(Response(200, Dict(map["success" := Bool(true), "reason" := Str(NonTextReason)])), true, None)
            else
              var text := Get(message.fields, "text", Str(""));
              var metadata := map["event" := event, "replyToken" := Get(data.fields, "replyToken", Null), "displayName" := displayName];
              var run := RunAgent(cache, hasUi, text, userId, metadata, w, showCompound);
              match run.outcome
              case Err(e) => Handled(ErrorResponse(500, e), true, Some(run))
              case Ok(resp) => Handled(Respond(resp), true, Some(run))
  }

  /** The request gets past the point where the counter moves: a dict body whose event is a dict. */
  predicate Counts(body: BodyRead)
  {
    body.Parsed? && body.data.Dict? && Get(body.data.fields, "event", Dict(map[])).Dict?
  }

  /** The message of a counted request is a dict of type "text". */
  predicate IsTextMessage(body: BodyRead)
    requires Counts(body)
  {
    var message := Get(Get(body.data.fields, "event", Dict(map[])).fields, "message", Dict(map[]));
    message.Dict? && Get(message.fields, "type", Null) == Str("text")
  }

  /** The agent's result dict is answered with 200, or 500 when reading it raises. */
  lemma RespondStatus(response: Json)
    ensures Respond(response).status in {200, 500}
    ensures Respond(response).status == 500 <==> ReplyText(response).Err?
  {
  }

  /** 400 answers exactly the bodies that are not JSON, always with the same error document. */
  lemma WebhookInvalidJson(cache: Option<string>, hasUi: bool, body: BodyRead, w: AgentWorld, showCompound: Json -> string)
    ensures var h := HandleWebhook(cache, hasUi, body, w, showCompound);
      (h.response.status == 400 <==> body.InvalidJson?)
      && (h.response.status == 400 ==> h.response.body == Dict(map["error" := Str("Invalid JSON")]))
  {
    var h := HandleWebhook(cache, hasUi, body, w, showCompound);
    if h.run.Some? && h.run.value.outcome.Ok? {
      RespondStatus(h.run.value.outcome.value);
    }
  }

  /** Every response is 200, 400 or 500. */
  lemma WebhookStatus(cache: Option<string>, hasUi: bool, body: BodyRead, w: AgentWorld, showCompound: Json -> string)
    ensures HandleWebhook(cache, hasUi, body, w, showCompound).response.status in {200, 400, 500}
  {
    var h := HandleWebhook(cache, hasUi, body, w, showCompound);
    if h.run.Some? && h.run.value.outcome.Ok? {
      RespondStatus(h.run.value.outcome.value);
    }
  }

  /** The counter moves exactly for requests that get past reading data and event. */
  lemma WebhookCounted(cache: Option<string>, hasUi: bool, body: BodyRead, w: AgentWorld, showCompound: Json -> string)
    ensures HandleWebhook(cache, hasUi, body, w, showCompound).counted <==> Counts(body)
  {
  }

  /**
   * Only a text message reaches the agent; a dict message of another type
   * answers 200 with the reason and never reaches it.
   */
  lemma WebhookTextOnly(cache: Option<string>, hasUi: bool, body: BodyRead, w: AgentWorld, showCompound: Json -> string)
    ensures var h := HandleWebhook(cache, hasUi, body, w, showCompound);
      (h.run.Some? ==> Counts(body) && IsTextMessage(body))
      && (Counts(body) && Initials(Get(body.data.fields, "userId", Null)).Ok?
          && Get(Get(body.data.fields, "event", Dict(map[])).fields, "message", Dict(map[])).Dict? && !IsTextMessage(body)
          ==> h.run.None? && h.response == Response(200, Dict(map["success" := Bool(true), "reason" := Str(NonTextReason)])))
  {
  }

  predicate HasPrefix(s: string, prefix: string)
  {
    |prefix| <= |s| && s[..|prefix|] == prefix
  }

  /**
   * When the webhook reaches the agent, it passes the message text (default
   * ""), the user id, and metadata holding the event, the reply token and the
   * display name (default: the user id's initials).
   */
  lemma WebhookAgentCall(cache: Option<string>, hasUi: bool, data: map<string, Json>, w: AgentWorld,
                         showCompound: Json -> string)
    requires HandleWebhook(cache, hasUi, Parsed(Dict(data)), w, showCompound).run.Some?
    ensures var event := Get(data, "event", Dict(map[]));
      var userId := Get(data, "userId", Null);
      event.Dict? && Get(event.fields, "message", Dict(map[])).Dict? && Initials(userId).Ok?
      && HandleWebhook(cache, hasUi, Parsed(Dict(data)), w, showCompound).run == Some(RunAgent(
           cache, hasUi, Get(Get(event.fields, "message", Dict(map[])).fields, "text", Str("")), userId,
           map["event" := event, "replyToken" := Get(data, "replyToken", Null),
               "displayName" := Get(data, "displayName", Initials(userId).value)],
           w, showCompound))
  {
  }

  /** The agent call the webhook makes when the display name is a plain string. */
  lemma NamedAgentCall(cache: Option<string>, hasUi: bool, text: Json, userId: Json, event: Json, replyToken: Json,
                       name: string, w: AgentWorld, showCompound: Json -> string)
    ensures var run := RunAgent(cache, hasUi, text, userId,
                                map["event" := event, "replyToken" := replyToken, "displayName" := Str(name)], w, showCompound);
      run.launched.Some? ==>
        SentParams(run).Some?
        && HasPrefix(SentParams(run).value.message, "[LINE User: " + name + "] ")
        && SentParams(run).value.sessionId == "line:" + Show(userId, showCompound)
  {
    var metadata := map["event" := event, "replyToken" := replyToken, "displayName" := Str(name)];
    RunAgentCall(cache, hasUi, text, userId, metadata, w, showCompound);
    var prefix := "[LINE User: " + name + "] ";
    assert DisplayName(metadata) == Str(name);
    assert Show(Str(name), showCompound) == name;
    var m := prefix + Show(text, showCompound);
    assert m[..|prefix|] == prefix;
  }

  /**
   * With no displayName in the body the agent is told the first eight
   * characters of the user id, or "Unknown" without one; the session is
   * "line:" + user id either way (str(None) is "None").
   */
  lemma WebhookDisplayNameDefault(cache: Option<string>, hasUi: bool, data: map<string, Json>, w: AgentWorld,
                                  showCompound: Json -> string, uid: Option<string>)
    requires "displayName" !in data
    requires if uid.Some? then "userId" in data && data["userId"] == Str(uid.value) else "userId" !in data
    ensures var h := HandleWebhook(cache, hasUi, Parsed(Dict(data)), w, showCompound);
      var name := if uid.None? || uid.value == "" then "Unknown"
                  else if |uid.value| <= 8 then uid.value else uid.value[..8];
      h.run.Some? && h.run.value.launched.Some? ==>
        SentParams(h.run.value).Some?
        && HasPrefix(SentParams(h.run.value).value.message, "[LINE User: " + name + "] ")
        && SentParams(h.run.value).value.sessionId == "line:" + (if uid.Some? then uid.value else "None")
  {
    var h := HandleWebhook(cache, hasUi, Parsed(Dict(data)), w, showCompound);
    if h.run.Some? {
      var name := if uid.None? || uid.value == "" then "Unknown"
                  else if |uid.value| <= 8 then uid.value else uid.value[..8];
      var event := Get(data, "event", Dict(map[]));
      var userId := Get(data, "userId", Null);
      WebhookAgentCall(cache, hasUi, data, w, showCompound);
      assert Initials(userId) == Ok(Str(name));
      NamedAgentCall(cache, hasUi, Get(Get(event.fields, "message", Dict(map[])).fields, "text", Str("")), userId,
                     event, Get(data, "replyToken", Null), name, w, showCompound);
    }
  }

  /** A failure dict from the agent (no executable, non-zero exit, bad output) ends in 200 with response None. */
  lemma WebhookFailedAgent(message: string)
    ensures Respond(ErrorShape(message)) == Response(200, Dict(map["success" := Bool(true), "response" := Null]))
  {
    ErrorShapeHasNoReply(message);
  }

  /** A whitespace-only text still counts as a reply: the response carries text "" rather than None. */
  lemma WhitespaceReply()
    ensures var resp := WithPayloads([TextPayload(" ")]);
      Respond(resp) == Response(200, Dict(map["success" := Bool(true), "response" := Dict(map["text" := Str(""), "raw" := resp])]))
  {
    var resp := WithPayloads([TextPayload(" ")]);
    var items := [TextPayload(" ")];
    assert ReplyText(resp) == Ok(" \n") by {
      assert PayloadItems(resp) == Ok(items);
      assert Fold(items, "") == Ok(" \n") by {
        assert Fragment(items[0]) == Ok(Some(" "));
        assert items[1..] == [];
        assert "" + " " + "\n" == " \n";
      }
    }
    assert Text.Strip(" \n") == "" by {
      var s := " \n";
      assert Text.TrimLeft(s) == "" by {
        assert Text.IsSpace(s[0]) && s[1..] == "\n";
        assert Text.IsSpace(s[1..][0]) && s[1..][1..] == "";
      }
    }
  }

  /** The body of health_check. */
  function HealthBody(messageCount: nat): Json
  {
    Dict(map["status" := Str("ok"), "gateway" := Str("connected"), "message_count" := Int(messageCount)])
  }
}
