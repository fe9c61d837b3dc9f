/**
 `handler` of src/handler.py: parses `job["input"]`, picks the engine by the
 truthiness of `openai_route`, and relays the engine's units unchanged and
 in order. A job either yields a unit sequence or raises a fault before
 yielding anything.
 */
module Handler {
  import opened Values
  import opened Outcomes
  import opened Upstream
  import opened Utils
  import OpenAI = LlamaCPPOpenAIEngine
  import Adapter = LlamaCPPEngine

  /** The parsed input of a job whose `input` entry is a dict. */
  predicate HasDictInput(job: map<string, Value>) {
    "input" in job && job["input"].Object?
  }

  /** The whole job: an explicit route goes straight to the OpenAI engine,
      no route (or a falsy one) goes through the shape-inferring adapter. */
  function Handle(job: map<string, Value>, client: Client, dumps: Value -> string)
    : (r: Result<seq<Value>, Fault>)
    ensures "input" !in job ==> r == Err(MissingInput)
    ensures "input" in job && !job["input"].Object? ==> r == Err(InputNotAMapping)
    ensures HasDictInput(job) && Truthy(Parse(job["input"].fields).openaiRoute) ==>
      r == Ok(OpenAI.Generate(Parse(job["input"].fields), client, dumps))
    ensures HasDictInput(job) && !Truthy(Parse(job["input"].fields).openaiRoute) ==>
      r == Adapter.Generate(Parse(job["input"].fields), client, dumps)
    ensures r.Ok? ==> OpenAI.WellShaped(r.value)
    ensures r.Err? && r.error.ListingRaised? ==> r.error == ListingRaised(client.listing.error)
  {
    if "input" !in job then
      Err(MissingInput)
    else if !job["input"].Object? then
      Err(InputNotAMapping)
    else
      var input := Parse(job["input"].fields);
      if Truthy(input.openaiRoute) then Ok(OpenAI.Generate(input, client, dumps))
      else Adapter.Generate(input, client, dumps)
  }

  /** Nothing but `job["input"]` is read from the job. */
  lemma HandleReadsOnlyInput(a: map<string, Value>, b: map<string, Value>, client: Client, dumps: Value -> string)
    requires "input" in a <==> "input" in b
    requires "input" in a ==> a["input"] == b["input"]
    ensures Handle(a, client, dumps) == Handle(b, client, dumps)
  {
  }

  /** With a truthy explicit route, the route and `openai_input` are used
      verbatim whatever `messages`, `prompt` or `stream` hold. */
  lemma ExplicitRouteIgnoresPrompt(a: map<string, Value>, b: map<string, Value>, client: Client, dumps: Value -> string)
    requires "openai_route" in a && Truthy(a["openai_route"])
    requires "openai_route" in b && b["openai_route"] == a["openai_route"]
    requires Get(a, "openai_input", Null) == Get(b, "openai_input", Null)
    ensures Handle(map["input" := Object(a)], client, dumps) == Handle(map["input" := Object(b)], client, dumps)
  {
  }

  /** An absent, `None` or empty-string route selects the adapter, and then
      `openai_input` has no effect at all. */
  lemma EmptyRouteIgnoresOpenAIInput(input: map<string, Value>, other: Value, client: Client, dumps: Value -> string)
    requires "openai_route" !in input || input["openai_route"] == Null || input["openai_route"] == Str("")
    ensures Handle(map["input" := Object(input)], client, dumps)
         == Adapter.Generate(Parse(input), client, dumps)
    ensures Handle(map["input" := Object(input)], client, dumps)
         == Handle(map["input" := Object(input["openai_input" := other])], client, dumps)
  {
  }
}
