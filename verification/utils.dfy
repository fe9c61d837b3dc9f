/**
 `JobInput` of src/utils.py: the canonical request a raw job map is parsed
 into. Every field defaults by key presence, never by value.
 */
module Utils {
  import opened Values

  /** The four fields of a parsed job; `Null` stands for Python's `None`. */
  datatype JobInput = JobInput(
    llmInput: Value,
    stream: Value,
    openaiRoute: Value,
    openaiInput: Value)

  /** The only keys of the raw map that parsing looks at. */
  const ReadKeys: set<string> := {"messages", "prompt", "stream", "openai_route", "openai_input"}

  /** `JobInput(job)`: messages win over prompt whenever the key is present,
      `stream` defaults to false, the OpenAI fields to `None`. */
  function Parse(job: map<string, Value>): (r: JobInput)
    ensures "messages" in job ==> r.llmInput == job["messages"]
    ensures "messages" !in job && "prompt" in job ==> r.llmInput == job["prompt"]
    ensures "messages" !in job && "prompt" !in job ==> r.llmInput == Null
    ensures "stream" in job ==> r.stream == job["stream"]
    ensures "stream" !in job ==> r.stream == Bool(false)
    ensures "openai_route" in job ==> r.openaiRoute == job["openai_route"]
    ensures "openai_route" !in job ==> r.openaiRoute == Null
    ensures "openai_input" in job ==> r.openaiInput == job["openai_input"]
    ensures "openai_input" !in job ==> r.openaiInput == Null
  {
    JobInput(
      Get(job, "messages", Get(job, "prompt", Null)),
      Get(job, "stream", Bool(false)),
      Get(job, "openai_route", Null),
      Get(job, "openai_input", Null))
  }

  /** Keeps only the entries of `job` whose key is in `keys`. */
  function Restrict(job: map<string, Value>, keys: set<string>): (kept: map<string, Value>) {
    map k | k in job && k in keys :: job[k]
  }

  /** No field outside the five read keys influences the parsed request. */
  lemma ParseReadsOnlyItsKeys(job: map<string, Value>)
    ensures Parse(job) == Parse(Restrict(job, ReadKeys))
  {
  }
}
