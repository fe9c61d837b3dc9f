/**
 The OpenAI-compatible client the engines call, abstracted as the data its
 calls produce. The real client talks to a local inference server; here each
 call is replaced by its outcome, so every behaviour the server can show is
 an input of the model.
 */
module Upstream {
  import opened Values
  import opened Outcomes

  /** One entry of a `models.list()` response: its `id` and its `to_dict()`. */
  datatype ModelCard = ModelCard(id: string, record: Value)

  /** What a `create(...)` call returned. The engine reads it in exactly one
      of two ways, chosen by the request's stream flag:
      - `toDict`: the outcome of `response.to_dict()`;
      - iteration: `chunks` are the `to_dict()` of each chunk delivered, and
        `end` says how the iteration stopped after the last of them. */
  datatype Reply = Reply(
    toDict: Outcome<map<string, Value>>,
    chunks: seq<Value>,
    end: StreamEnd)

  /** How iterating a streamed reply stops: the server closed the stream, or
      the iteration raised an exception with the given `str()`. */
  datatype StreamEnd = Exhausted | RaisedAfter(message: string)

  /** The client: the outcome of `models.list()` and of the two create
      endpoints as functions of the keyword arguments they are called with. */
  datatype Client = Client(
    listing: Outcome<seq<ModelCard>>,
    complete: map<string, Value> -> Outcome<Reply>,
    chat: map<string, Value> -> Outcome<Reply>)
}
