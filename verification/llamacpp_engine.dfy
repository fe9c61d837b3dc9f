/**
 `LlamaCPPEngine` of src/engine.py: infers the OpenAI route from the shape of
 `llm_input`, builds the payload, and relays what the explicit-route engine
 yields for it. The model is the first id of a fresh model listing, fetched
 outside any exception handler: a failed or empty listing escapes the job as
 a fault instead of becoming an error unit.
 */
module LlamaCPPEngine {
  import opened Values
  import opened Outcomes
  import opened Upstream
  import opened Utils
  import OpenAI = LlamaCPPOpenAIEngine

  /** `client.models.list().data[0].id`, with the two ways it can raise. */
  function ResolveModel(listing: Outcome<seq<ModelCard>>): (r: Result<string, Fault>)
    ensures r.Ok? <==> listing.Ok? && |listing.value| > 0
    ensures r.Ok? ==> r.value == listing.value[0].id
    ensures listing.Err? ==> r == Err(ListingRaised(listing.error))
    ensures listing.Ok? && |listing.value| == 0 ==> r == Err(NoModels)
  {
    match listing
    case Err(message) => Err(ListingRaised(message))
    case Ok(models) => if |models| == 0 then Err(NoModels) else Ok(models[0].id)
  }

  /** The OpenAI-style job built for `job`: a string input is a prompt for
      the completions route, anything else (a list, `None`, ...) is the
      messages of the chat route. */
  function Shape(job: JobInput, model: string): (r: JobInput)
    ensures job.llmInput.Str? ==>
      && r.openaiRoute == Str("/v1/completions")
      && r.openaiInput == Object(map["model" := Str(model), "prompt" := job.llmInput, "stream" := job.stream])
    ensures !job.llmInput.Str? ==>
      && r.openaiRoute == Str("/v1/chat/completions")
      && r.openaiInput == Object(map["model" := Str(model), "messages" := job.llmInput, "stream" := job.stream])
    ensures OpenAI.RecognisedRoute(r.openaiRoute) && r.openaiRoute != Str(OpenAI.ModelsRoute)
  {
    if job.llmInput.Str? then
      Parse(map[
        "openai_route" := Str(OpenAI.CompletionsRoute),
        "openai_input" := Object(map["model" := Str(model), "prompt" := job.llmInput, "stream" := job.stream])])
    else
      Parse(map[
        "openai_route" := Str(OpenAI.ChatRoute),
        "openai_input" := Object(map["model" := Str(model), "messages" := job.llmInput, "stream" := job.stream])])
  }

  /** `LlamaCPPEngine.generate`: resolve the model, shape the request, relay
      the explicit-route engine's units unchanged. */
  function Generate(job: JobInput, client: Client, dumps: Value -> string): (r: Result<seq<Value>, Fault>)
    ensures r.Err? <==> !(client.listing.Ok? && |client.listing.value| > 0)
    ensures r.Ok? && job.llmInput.Str? ==>
      r.value == OpenAI.ChatOrCompletion(
        Object(map["model" := Str(client.listing.value[0].id), "prompt" := job.llmInput, "stream" := job.stream]),
        false, client, dumps)
    ensures r.Ok? && !job.llmInput.Str? ==>
      r.value == OpenAI.ChatOrCompletion(
        Object(map["model" := Str(client.listing.value[0].id), "messages" := job.llmInput, "stream" := job.stream]),
        true, client, dumps)
  {
    match ResolveModel(client.listing)
    case Err(fault) => Err(fault)
    case Ok(model) => Ok(OpenAI.Generate(Shape(job, model), client, dumps))
  }

  /** The explicit OpenAI fields of the job play no part in the inferred route. */
  lemma GenerateIgnoresOpenAIFields(a: JobInput, b: JobInput, client: Client, dumps: Value -> string)
    requires a.llmInput == b.llmInput && a.stream == b.stream
    ensures Generate(a, client, dumps) == Generate(b, client, dumps)
  {
  }

  /** The job's own `stream` value, copied into the payload, decides between
      one unit and a framed stream; a failed create is one error unit either
      way. */
  lemma GenerateStreamsWhenRequested(job: JobInput, client: Client, dumps: Value -> string)
    requires client.listing.Ok? && |client.listing.value| > 0
    ensures var r := Generate(job, client, dumps);
      var model := Str(client.listing.value[0].id);
      var kwargs := if job.llmInput.Str?
        then map["model" := model, "prompt" := job.llmInput, "stream" := job.stream]
        else map["model" := model, "messages" := job.llmInput, "stream" := job.stream];
      var call := OpenAI.Endpoint(client, !job.llmInput.Str?)(kwargs);
      && r.Ok?
      && (call.Err? ==> r.value == [Object(map["error" := Str(call.error)])])
      && (!Truthy(job.stream) && call.Ok? ==>
            r.value == [if call.value.toDict.Ok? then Object(call.value.toDict.value)
                        else Object(map["error" := Str(call.value.toDict.error)])])
      && (Truthy(job.stream) && call.Ok? ==> r.value == OpenAI.StreamUnits(dumps, call.value))
  {
  }
}
