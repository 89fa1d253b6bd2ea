/**
 * What a node sees of its run: the shared key/value memory it reads and writes, the
 * language model it may ask for a completion, and the tool registry it may call. The
 * model and the tools are collaborators whose answers are fixed functions of the
 * request; each keeps a log of the requests it received.
 */
module Context {
  import opened Json

  /** `ctx.memory`: a dictionary from keys to JSON-shaped values, updated in place. */
  class Memory {
    var store: map<string, Json>

    constructor(initial: map<string, Json>)
      ensures store == initial
    {
      store := initial;
    }

    /** `get(key, default)`. */
    function Get(key: string, default: Json): (v: Json)
      reads this
      ensures key in store ==> v == store[key]
      ensures key !in store ==> v == default
    {
      Lookup(store, key, default)
    }

    /** `set(key, value)`: one entry replaced or added, nothing else changes. */
    method Set(key: string, value: Json)
      modifies this
      ensures store == old(store)[key := value]
    {
      store := store[key := value];
    }
  }

  /** One request to the language model. */
  datatype Completion = Completion(prompt: string, model: string, maxTokens: nat)

  /** What a completion request gives back: the reply text, or an exception with its message. */
  datatype LlmReply = Answered(text: string) | Errored(message: string)

  /** `ctx.llm`: answers a completion request with a reply text, or raises (network, quota, authentication). */
  class Llm {
    const reply: Completion -> LlmReply
    var requests: seq<Completion>

    constructor(reply: Completion -> LlmReply)
      ensures this.reply == reply && requests == []
    {
      this.reply := reply;
      requests := [];
    }

    method Complete(request: Completion) returns (r: LlmReply)
      modifies this
      ensures requests == old(requests) + [request]
      ensures r == reply(request)
    {
      requests := requests + [request];
      r := reply(request);
    }
  }

  /** One tool invocation: the tool's name and its arguments. */
  datatype ToolCall = ToolCall(name: string, args: Json)

  /** What a tool invocation gives back: a value, or an exception with its message. */
  datatype ToolReply = Returned(value: Json) | Failed(message: string)

  /** `ctx.tools`: dispatches a call to a registered tool. */
  class ToolRegistry {
    const reply: ToolCall -> ToolReply
    var calls: seq<ToolCall>

    constructor(reply: ToolCall -> ToolReply)
      ensures this.reply == reply && calls == []
    {
      this.reply := reply;
      calls := [];
    }

    method Call(call: ToolCall) returns (r: ToolReply)
      modifies this
      ensures calls == old(calls) + [call]
      ensures r == reply(call)
    {
      calls := calls + [call];
      r := reply(call);
    }
  }
}
