/**
  The keyword arguments of a request to the text-generation service
  (the `kwargs` / `new_kwargs` dictionaries of main.py), the service itself
  as an opaque function, and the copy-and-substitute step the fallback
  chain performs on the arguments before every attempt.
*/
module Arguments {
  import opened Common

  /** One `{"role": ..., "content": ...}` entry of a chat request's `messages`. */
  datatype Message = Message(role: string, content: string)

  /** A keyword-argument value. Sampling options are never inspected by the
      engine; they are carried as `Number`. */
  datatype Value =
    | Text(text: string)
    | Number(number: int)
    | MessageList(messages: seq<Message>)

  const ModelKey: string := "model"
  const MessagesKey: string := "messages"
  const PromptKey: string := "prompt"

  /** The two call shapes of the remote service. */
  datatype Endpoint = ChatCompletion | Completion

  /** Whatever the remote service returns on success; never inspected. */
  datatype Response = Response(payload: string)

  /** The remote service: `None` when the call raised (or returned `None`). */
  type Service = (Endpoint, map<string, Value>) -> Option<Response>

  /** The arguments one fallback attempt sends: the caller's arguments with
      `model` replaced, and nothing else changed. */
  function WithModel(params: map<string, Value>, model: string): (r: map<string, Value>)
    ensures r.Keys == params.Keys + {ModelKey}
    ensures r[ModelKey] == Text(model)
    ensures forall k :: k in params && k != ModelKey ==> r[k] == params[k]
  {
    params[ModelKey := Text(model)]
  }

  /** A mutable keyword-argument dictionary. */
  class Kwargs {
    var entries: map<string, Value>

    constructor (entries: map<string, Value>)
      ensures this.entries == entries
    {
      this.entries := entries;
    }

    /** `copy.deepcopy(source)`: a fresh dictionary with the same entries.
        Values are immutable here, so sharing them is as good as copying. */
    constructor DeepCopy(source: Kwargs)
      ensures entries == source.entries
    {
      entries := source.entries;
    }

    /** `d[key] = v` */
    method Set(key: string, v: Value)
      modifies this
      ensures entries == old(entries)[key := v]
    {
      entries := entries[key := v];
    }

    /** `d.pop(key, None)`: removes the key if present, never raises. */
    method Pop(key: string)
      modifies this
      ensures entries == old(entries) - {key}
    {
      entries := entries - {key};
    }
  }
}
