/**
 `LlamaCPPOpenAIEngine` of src/engine.py: dispatches an explicit OpenAI route
 to the client and turns what the client does into a sequence of output
 units. Every fault raised by the client is caught and becomes one
 `{"error": message}` unit at the end of the sequence; no fault escapes.

 Each async generator is modelled as the finite sequence it yields. The
 JSON encoder `json.dumps(..., separators=(",", ":"))` is the parameter
 `dumps`.
 */
module LlamaCPPOpenAIEngine {
  import opened Values
  import opened Outcomes
  import opened Upstream
  import opened Utils

  const ModelsRoute: string := "/v1/models"
  const ChatRoute: string := "/v1/chat/completions"
  const CompletionsRoute: string := "/v1/completions"

  /** The message of the unit yielded for an unrecognised route. */
  const InvalidRouteMessage: string := "invalid route"

  /** How Python ends the message of the TypeError raised by
      `create(**openai_input)` when the input is not a dict. */
  function NotAMappingSuffix(input: Value): (suffix: string) {
    "argument after ** must be a mapping, not " + TypeName(input)
  }

  /** `str()` of that TypeError. Python prefixes the suffix with the
      qualified name of the create function, which depends on the client
      library; the model writes a plain `create()` there. */
  function NotAMappingMessage(input: Value): (message: string)
    ensures EndsWith(message, NotAMappingSuffix(input))
  {
    var message := "create() " + NotAMappingSuffix(input);
    assert message[|message| - |NotAMappingSuffix(input)|..] == NotAMappingSuffix(input);
    message
  }

  /** The text of the unit that closes a completed stream. */
  const DoneText: string := "data: [DONE]"

  /** The in-band error unit `{"error": message}`. */
  function ErrorUnit(message: string): (unit: Value) {
    Object(map["error" := Str(message)])
  }

  /** One streamed chunk framed for the caller: `"data: " + json + "\n\n"`. */
  function FrameUnit(dumps: Value -> string, chunk: Value): (unit: Value) {
    Str("data: " + dumps(chunk) + "\n\n")
  }

  /** A text unit framed like a streamed chunk. */
  predicate IsDataFrame(unit: Value) {
    && unit.Str?
    && |unit.s| >= 8
    && unit.s[..6] == "data: "
    && unit.s[|unit.s| - 2..] == "\n\n"
  }

  /** The shape of every sequence the engine yields: zero or more chunk frames
      followed by exactly one closing unit (a response, a model list, the
      done marker or an error), which is not itself a chunk frame. */
  predicate WellShaped(units: seq<Value>) {
    && |units| >= 1
    && (forall i :: 0 <= i < |units| - 1 ==> IsDataFrame(units[i]))
    && !IsDataFrame(units[|units| - 1])
  }

  lemma FrameIsDataFrame(dumps: Value -> string, chunk: Value)
    ensures IsDataFrame(FrameUnit(dumps, chunk))
  {
  }

  /** `_handle_model_request`: one unit, either the model list or an error. */
  function ModelRequest(listing: Outcome<seq<ModelCard>>): (units: seq<Value>)
    ensures |units| == 1
    ensures listing.Err? ==> units[0] == Object(map["error" := Str(listing.error)])
    ensures listing.Ok? ==>
      && units[0].Object?
      && units[0].fields.Keys == {"object", "data"}
      && units[0].fields["object"] == Str("list")
      && units[0].fields["data"].Array?
      && |units[0].fields["data"].items| == |listing.value|
      && forall i :: 0 <= i < |listing.value| ==>
           units[0].fields["data"].items[i] == listing.value[i].record
  {
    match listing
    case Err(message) => [ErrorUnit(message)]
    case Ok(models) =>
      var data := seq(|models|, i requires 0 <= i < |models| => models[i].record);
      [Object(map["object" := Str("list"), "data" := Array(data)])]
  }

  /** The frames of a sequence of chunks, one per chunk, in order. */
  function Frames(dumps: Value -> string, chunks: seq<Value>): (frames: seq<Value>) {
    seq(|chunks|, i requires 0 <= i < |chunks| => FrameUnit(dumps, chunks[i]))
  }

  /** Iterating a streamed reply: a frame per chunk delivered, then the done
      marker, or, when the iteration raised, the error instead of it. */
  function StreamUnits(dumps: Value -> string, reply: Reply): (units: seq<Value>)
    ensures |units| == |reply.chunks| + 1
    ensures forall i :: 0 <= i < |reply.chunks| ==>
      units[i] == Str("data: " + dumps(reply.chunks[i]) + "\n\n")
    ensures reply.end.Exhausted? ==> units[|reply.chunks|] == Str("data: [DONE]")
    ensures reply.end.RaisedAfter? ==>
      && units[|reply.chunks|] == Object(map["error" := Str(reply.end.message)])
      && Str("data: [DONE]") !in units
  {
    var last := if reply.end.Exhausted? then Str(DoneText) else ErrorUnit(reply.end.message);
    FramesAreNotDone(dumps, reply.chunks);
    Frames(dumps, reply.chunks) + [last]
  }

  lemma FramesAreNotDone(dumps: Value -> string, chunks: seq<Value>)
    ensures Str(DoneText) !in Frames(dumps, chunks)
  {
    forall i | 0 <= i < |chunks|
      ensures Frames(dumps, chunks)[i] != Str(DoneText)
    {
      FrameIsDataFrame(dumps, chunks[i]);
    }
  }

  /** The streaming loop as written: yield a frame per chunk, then the done
      marker; a fault raised by the iteration ends the loop with an error. */
  method StreamLoop(dumps: Value -> string, reply: Reply) returns (units: seq<Value>)
    ensures units == StreamUnits(dumps, reply)
  {
    units := [];
    var i := 0;
    while i < |reply.chunks|
      invariant 0 <= i <= |reply.chunks|
      invariant units == Frames(dumps, reply.chunks[..i])
    {
      FramesOfConcat(dumps, reply.chunks[..i], [reply.chunks[i]]);
      assert reply.chunks[..i + 1] == reply.chunks[..i] + [reply.chunks[i]];
      units := units + [FrameUnit(dumps, reply.chunks[i])];
      i := i + 1;
    }
    assert reply.chunks[..i] == reply.chunks;
    match reply.end
    case Exhausted =>
      units := units + [Str(DoneText)];
    case RaisedAfter(message) =>
      units := units + [ErrorUnit(message)];
  }

  /** `openai_input.get("stream", False)`, read as a condition. */
  predicate StreamRequested(input: map<string, Value>) {
    Truthy(Get(input, "stream", Bool(false)))
  }

  /** The create endpoint the `chat` flag selects. */
  function Endpoint(client: Client, chat: bool): (create: map<string, Value> -> Outcome<Reply>) {
    if chat then client.chat else client.complete
  }

  /** `_handle_chat_or_completion_request`: one unit for a failed call or a
      non-streaming reply, a framed stream otherwise. */
  function ChatOrCompletion(input: Value, chat: bool, client: Client, dumps: Value -> string)
    : (units: seq<Value>)
    ensures !input.Object? ==>
      && |units| == 1
      && units[0].Object?
      && units[0].fields.Keys == {"error"}
      && units[0].fields["error"].Str?
      && EndsWith(units[0].fields["error"].s, "argument after ** must be a mapping, not " + TypeName(input))
    ensures input.Object? && Endpoint(client, chat)(input.fields).Err? ==>
      units == [Object(map["error" := Str(Endpoint(client, chat)(input.fields).error)])]
    ensures input.Object? && !StreamRequested(input.fields) ==> |units| == 1
    ensures input.Object? && !StreamRequested(input.fields) && Endpoint(client, chat)(input.fields).Ok? ==>
      var reply := Endpoint(client, chat)(input.fields).value;
      units[0] == (if reply.toDict.Ok? then Object(reply.toDict.value)
                   else Object(map["error" := Str(reply.toDict.error)]))
    ensures input.Object? && StreamRequested(input.fields) && Endpoint(client, chat)(input.fields).Ok? ==>
      units == StreamUnits(dumps, Endpoint(client, chat)(input.fields).value)
  {
    match input
    case Object(kwargs) =>
      (match Endpoint(client, chat)(kwargs)
       case Err(message) => [ErrorUnit(message)]
       case Ok(reply) =>
         if !StreamRequested(kwargs) then
           (match reply.toDict
            case Ok(body) => [Object(body)]
            case Err(message) => [ErrorUnit(message)])
         else
           StreamUnits(dumps, reply))
    case _ => [ErrorUnit(NotAMappingMessage(input))]
  }

  /** True when `route` is one of the three strings the engine serves. */
  predicate RecognisedRoute(route: Value) {
    route == Str(ModelsRoute) || route == Str(ChatRoute) || route == Str(CompletionsRoute)
  }

  /** `LlamaCPPOpenAIEngine.generate`: dispatch on the explicit route. */
  function Generate(job: JobInput, client: Client, dumps: Value -> string): (units: seq<Value>)
    ensures !RecognisedRoute(job.openaiRoute) ==> units == [Object(map["error" := Str("invalid route")])]
    ensures job.openaiRoute == Str("/v1/models") ==> units == ModelRequest(client.listing)
    ensures job.openaiRoute == Str("/v1/chat/completions") ==>
      units == ChatOrCompletion(job.openaiInput, true, client, dumps)
    ensures job.openaiRoute == Str("/v1/completions") ==>
      units == ChatOrCompletion(job.openaiInput, false, client, dumps)
  {
    if job.openaiRoute == Str(ModelsRoute) then
      ModelRequest(client.listing)
    else if job.openaiRoute in [Str(ChatRoute), Str(CompletionsRoute)] then
      ChatOrCompletion(job.openaiInput, job.openaiRoute == Str(ChatRoute), client, dumps)
    else
      [ErrorUnit(InvalidRouteMessage)]
  }

  /** The engine looks at nothing but the route and the OpenAI input. */
  lemma GenerateReadsOnlyOpenAIFields(a: JobInput, b: JobInput, client: Client, dumps: Value -> string)
    requires a.openaiRoute == b.openaiRoute && a.openaiInput == b.openaiInput
    ensures Generate(a, client, dumps) == Generate(b, client, dumps)
  {
  }

  /** Every sequence the engine can yield, for every job and every client
      behaviour, is frames followed by one closing unit: a consumer only
      needs to inspect units, never to handle a fault. */
  lemma GenerateIsWellShaped(job: JobInput, client: Client, dumps: Value -> string)
    ensures WellShaped(Generate(job, client, dumps))
  {
  }

  lemma StreamIsWellShaped(dumps: Value -> string, reply: Reply)
    ensures WellShaped(StreamUnits(dumps, reply))
  {
  }

  /** Framing keeps the order of the chunks: the frames of two runs of chunks
      are the frames of the first run followed by those of the second. */
  lemma FramesOfConcat(dumps: Value -> string, first: seq<Value>, second: seq<Value>)
    ensures Frames(dumps, first + second) == Frames(dumps, first) + Frames(dumps, second)
  {
  }

  /** A fault during iteration changes only the closing unit: the frames
      already yielded are the same as in a stream that completed after the
      same chunks, and the done marker is replaced by the error. */
  lemma FailureReplacesOnlyTheEnd(dumps: Value -> string, chunks: seq<Value>, body: Outcome<map<string, Value>>, message: string)
    ensures var failed := StreamUnits(dumps, Reply(body, chunks, RaisedAfter(message)));
      var completed := StreamUnits(dumps, Reply(body, chunks, Exhausted));
      && failed[..|chunks|] == completed[..|chunks|]
      && completed[|chunks|] == Str("data: [DONE]")
      && failed == completed[..|chunks|] + [Object(map["error" := Str(message)])]
  {
  }
}
