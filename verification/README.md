# inference-worker adapter, modelled in Dafny

The worker receives serverless jobs shaped `{"input": {...}}` and turns each
into a call against a locally hosted OpenAI-compatible inference server
(llama.cpp), handing back a sequence of output units. This project models
the worker's whole request-shaping and output-sequencing logic:

- `Utils.Parse` (`JobInput`, src/utils.py): the raw input map becomes
  `llm_input`, `stream`, `openai_route` and `openai_input`, each defaulted by
  key presence.
- `Handler.Handle` (src/handler.py): a truthy `openai_route` sends the job to
  the explicit-route engine, anything else to the shape-inferring adapter;
  the engine's units are relayed unchanged.
- `LlamaCPPEngine` (src/engine.py): a string `llm_input` becomes a
  `/v1/completions` payload, anything else a `/v1/chat/completions` payload;
  the model is the first id of a model listing made outside any exception
  handler, so a failed or empty listing escapes as a fault.
- `LlamaCPPOpenAIEngine` (src/engine.py): dispatch on the route; a model list
  or an error for `/v1/models`; one response, or frames
  `"data: " + json + "\n\n"` closed by `"data: [DONE]"`, for completion and
  chat; one `{"error": ...}` unit for any fault the client raises, always as
  the last unit; `{"error": "invalid route"}` for any other route.

Python values are `Values.Value` (None, bools, integers, strings, lists,
string-keyed dicts), with Python truthiness (`Values.Truthy`) and
`dict.get` (`Values.Get`) written out. Each async generator is the finite
`seq<Value>` it yields; a job's outcome is
`Result<seq<Value>, Fault>`, where `Err` is an exception that escapes before
any unit. The OpenAI client is the data its calls produce
(`Upstream.Client`): the outcome of `models.list()` and the two create
endpoints as functions of the keyword arguments. A create reply
(`Upstream.Reply`) offers both ways the engine can read it, `to_dict()` and
iteration (chunks, then an optional fault), and the request's stream flag
picks one. The compact JSON encoder is the parameter `dumps`.

The program's docstrings promise more than its code does, and the model
follows the code. `LlamaCPPEngine.generate` describes `llm_input` as either
a prompt string or a list of chat messages (src/engine.py:77-80). In fact,
every non-string `llm_input`, `None` included, is sent to the chat route.
The engine docstrings say exceptions are caught and yielded as error dicts
(src/engine.py:221-223, 264-267). That holds inside the two request
handlers, but the model listing at src/engine.py:101 sits outside any
`try`. So a failed listing and an empty one escape the job as faults
(`Fault.ListingRaised`, `Fault.NoModels`) instead of becoming error units.
A job without `input`, or whose input is not a dict, also raises
(`Fault.MissingInput`, `Fault.InputNotAMapping`).

## Model

| member | source | states |
|---|---|---|
| `Utils.Parse` | src/utils.py:24-27 | `messages` wins over `prompt` whenever the key is present (even holding `None`). Without it, `llm_input` is `prompt` or `None`. `stream` is false when absent, otherwise verbatim. `openai_route`/`openai_input` are `None` when absent, otherwise verbatim |
| `Utils.ParseReadsOnlyItsKeys` | src/utils.py:24-27 | parsing reads only the five keys: dropping every other entry changes nothing |
| `Values.FalsyValues` | src/handler.py:28-30 | a route value is falsy exactly when it is `None`, `False`, `0`, `""`, `[]` or `{}`, so these select the adapter |
| `LlamaCPPOpenAIEngine.Generate` | src/engine.py:191-208 | an unrecognised route yields exactly `[{"error": "invalid route"}]`. `/v1/models` yields the model-request units. The two completion routes yield the chat or completion units, with the chat endpoint exactly for `/v1/chat/completions` |
| `LlamaCPPOpenAIEngine.GenerateReadsOnlyOpenAIFields` | src/engine.py:191-206 | the engine's output depends only on `openai_route` and `openai_input` |
| `LlamaCPPOpenAIEngine.ModelRequest` | src/engine.py:226-234 | exactly one unit. On success it is a dict with exactly the keys `object` = `"list"` and `data`, whose length and entries match the upstream models, so it carries no `error`. On failure it is exactly `{"error": message}` |
| `LlamaCPPOpenAIEngine.ChatOrCompletion` | src/engine.py:272-294 | a non-dict input (the `**` TypeError) yields exactly one unit, `{"error": m}`, where `m` ends with `argument after ** must be a mapping, not <type name>`. A failed create yields exactly `{"error": message}`. A non-streaming request yields exactly one unit: the response dict, or the `to_dict` error. A streaming request yields the stream units of the reply |
| `LlamaCPPOpenAIEngine.NotAMappingMessage` | src/engine.py:293-294 | the error text for a non-dict `openai_input` ends with `argument after ** must be a mapping, not <type name>`, the ending Python gives `str()` of that TypeError |
| `LlamaCPPOpenAIEngine.StreamUnits` | src/engine.py:285-294 | N chunks give N+1 units, the i-th being `"data: " + dumps(chunk_i) + "\n\n"`. The last unit is `"data: [DONE]"` when the iteration ends normally. When it raises after k chunks, the last unit is `{"error": message}` and `"data: [DONE]"` appears nowhere |
| `LlamaCPPOpenAIEngine.StreamLoop` | src/engine.py:285-291 | the imperative chunk loop yields exactly the stream units. Its invariant is that after i chunks it has yielded the frames of the first i chunks |
| `LlamaCPPOpenAIEngine.FrameIsDataFrame` | src/engine.py:287-289 | every chunk frame starts with `"data: "` and ends with `"\n\n"` |
| `LlamaCPPOpenAIEngine.FramesAreNotDone` | src/engine.py:285-291 | no chunk frame can be mistaken for the `"data: [DONE]"` marker |
| `LlamaCPPOpenAIEngine.StreamIsWellShaped` | src/engine.py:285-294 | a stream is chunk frames followed by one closing unit that is not a frame |
| `LlamaCPPOpenAIEngine.FramesOfConcat` | src/engine.py:285-289 | frames keep chunk order: the frames of `a + b` are the frames of `a` followed by those of `b`. This is the step of `StreamLoop`'s invariant |
| `LlamaCPPOpenAIEngine.FailureReplacesOnlyTheEnd` | src/engine.py:285-294 | a stream that raises after k chunks yields the same k frames as one that completes after them. Only the closing `"data: [DONE]"` is replaced by `{"error": message}` |
| `LlamaCPPOpenAIEngine.GenerateIsWellShaped` | src/engine.py:171-294 | for every job and every client behaviour, the output is non-empty: frames, then exactly one closing unit. So an error unit only ever comes last |
| `LlamaCPPEngine.ResolveModel` | src/engine.py:101 | the model is the first listed id. It exists exactly when the listing succeeded with at least one model. A raising listing and an empty listing are faults, not units |
| `LlamaCPPEngine.Shape` | src/engine.py:105-128 | a string `llm_input` gives route `/v1/completions` with `{model, prompt, stream}`. Anything else gives `/v1/chat/completions` with `{model, messages, stream}`. The route is always a recognised non-listing route |
| `LlamaCPPEngine.Generate` | src/engine.py:98-138 | the job escapes with a fault exactly when the listing fails or is empty. Otherwise its units are exactly those of the completions (string input) or chat (other input) endpoint called with the shaped payload |
| `LlamaCPPEngine.GenerateIgnoresOpenAIFields` | src/engine.py:105-128 | the adapter's result depends only on `llm_input` and `stream` |
| `LlamaCPPEngine.GenerateStreamsWhenRequested` | src/engine.py:98-138 | with a usable listing the adapter never escapes. A failed create gives exactly one error unit. Otherwise a falsy `stream` gives exactly the one response unit (or its `to_dict` error), and a truthy one gives the framed stream of the reply |
| `Handler.Handle` | src/handler.py:27-36 | a missing `input` or a non-dict input raises. A truthy route relays the explicit engine's units unchanged. Otherwise the adapter's outcome is relayed. Every yielded sequence is well shaped. A listing fault carries the listing's own message |
| `Handler.HandleReadsOnlyInput` | src/handler.py:27 | two jobs with the same `input` entry have the same outcome |
| `Handler.ExplicitRouteIgnoresPrompt` | src/handler.py:28-30 | with a truthy route, inputs that agree on `openai_route` and `openai_input` have the same outcome, whatever `messages`, `prompt` or `stream` hold |
| `Handler.EmptyRouteIgnoresOpenAIInput` | src/handler.py:28-30 | an absent, `None` or `""` route runs the adapter, and changing `openai_input` then changes nothing |

## Left out

- Host runtime plumbing: `runpod.serverless.start`, the concurrency modifier and `MAX_CONCURRENCY` parsing (src/handler.py:14-17, 39-45).
- The client singleton and the network (src/engine.py:29-32). Every call is replaced by its outcome in `Upstream.Client`.
- `load_dotenv` and the `print` logging in the two constructors and in `generate` (src/engine.py:63-64, 130-131, 168-169). They have no behavioural contract.
- The internals of `json.dumps` and of `to_dict()`. The encoder is the parameter `dumps`, and only the `"data: "`/`"\n\n"` framing is modelled.
- A `to_dict()` that raises on an individual chunk is folded into the reply's iteration failure after the chunks before it. The observable units are the same.
- LlamaCPPOpenAIEngine.ChatOrCompletion: for a non-dict `openai_input`, the contract states only the suffix of the error message, `argument after ** must be a mapping, not <type name>`. Python puts the qualified name of the create function before it, and that name depends on the client library version. The model writes a plain `create()` there.
- Async/await and generator laziness. A consumer that stops early is not modelled; each generator is the full sequence it would yield.
- Floating-point numbers in job values, and so the truthiness of `0.0`.
- Determinism of repeated jobs against a fixed upstream holds by construction, because every operation is a pure function. It needs no lemma.
