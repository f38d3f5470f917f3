# reliableGPT retry and fallback engine, modelled in Dafny

reliableGPT wraps a call to the OpenAI text-generation service. When the
wrapped call raises, the wrapper classifies the error, builds an ordered
chain of alternative models, and tries them one after the other on a copy
of the caller's keyword arguments. It returns the first response it gets,
or a fixed "graceful" string when no model answers. The whole engine lives
in `build/lib/reliablegpt/main.py`. This project models it in Dafny and
proves what each part promises.

Modules (one per component of `main.py`):

- `Common`: the `Option` and `Result` wrappers.
- `Arguments`: keyword-argument values and the mutable `Kwargs` dictionary
  (deep copy, `d[k] = v`, `d.pop(k, None)`). Also `WithModel`, the arguments
  of one fallback attempt, and the remote service. The service is an opaque
  function-valued parameter, `Service = (Endpoint, map<string, Value>) -> Option<Response>`,
  where `None` means the call raised.
- `Request`: one attempt (`make_LLM_request`), and the completion-style
  reshaping (`prompt` = message contents joined by single spaces, `messages`
  removed) with its round-trip lemma.
- `Fallback`: the chain walk. `Walk` is the specification function.
  `FallbackRequest` is the loop, proved equal to it. Lemmas cover first
  success, exhaustion, prefix and concatenation.
- `Policy`: error classification (`Classify`), the default strategy, and the
  chain policy (`PlanFor`).
- `Wrapper`: the handler (`HandleError`, specified by the composed function
  `Handled`) and the interception wrapper (`ReliableCreate`).

The walk and the handler also return a ghost list of the models they
attempted. That list is how "stops at the first success", "never attempts
a later model" and "zero attempts" are stated.

## Behaviour of the code worth knowing

The model follows `main.py` as written, including in these places.

- Routing (main.py:30): the test `"3.5" or "4" in model` is always true,
  because the non-empty literal `"3.5"` decides the `or`. So every attempt
  goes to the chat endpoint with its arguments unchanged, and the
  completion branch at main.py:34-37 never runs. Both branches are
  modelled as written in `Request.SendRequest`. `Request.MakeRequest`
  passes it the value of the test. `Request.ChatBranchAlwaysTaken` shows
  the test holds for every model, so `MakeRequest` only ever calls the
  chat endpoint.
- Double walk (main.py:102, main.py:104): the wrapper calls the handler
  twice with the same arguments and returns the second outcome. Every
  attempt of the chain is therefore made twice. `Wrapper.ReliableCreate`
  states this through its ghost `attempted` list.
- The wrapper can raise. Its `except` block (main.py:97-104) calls code
  that can itself raise, and nothing catches those exceptions:
  - `e.error` at main.py:102 raises when the exception has no `error`
    attribute;
  - `openAI_error['type']` at main.py:66 raises when `error` is `None` or
    has no `type` key;
  - `openAI_error.code` at main.py:70 raises when the payload is a plain
    dictionary or has no `code`. `type` is read by subscript but `code` as
    an attribute.

  These cases become `Outcome.Raises`.
- Failure kinds: the code tells apart only three:
  - an invalid request, with or without `context_length_exceeded`;
  - an authentication failure;
  - everything else.

  The comment at main.py:60 gives `APIConnectionError` a
  check-your-network remedy. The code still retries it over the chain
  through the catch-all at main.py:83, like rate limits, timeouts and
  unknown types.
- `CHAT_MODELS` (main.py:7-15) is never used. Commas are missing after two
  of its entries, so Python joins neighbouring names into one string.
  Nothing in the model depends on this list.

## Model

| member | source | states |
|---|---|---|
| `Arguments.WithModel` | build/lib/reliablegpt/main.py:48-49 | an attempt's arguments are the caller's with `model` set to the candidate; every other key keeps its value, and no key is added or lost |
| `Arguments.Kwargs.DeepCopy` | build/lib/reliablegpt/main.py:48 | the copy is a fresh dictionary with the same entries |
| `Arguments.Kwargs.Set` | build/lib/reliablegpt/main.py:49 | `d[key] = v` updates exactly that key |
| `Arguments.Kwargs.Pop` | build/lib/reliablegpt/main.py:36 | `pop(key, None)` removes the key if present and changes nothing else |
| `Request.ChatBranchAlwaysTaken` | build/lib/reliablegpt/main.py:30 | the routing test is true for every model value |
| `Request.SendRequest` | build/lib/reliablegpt/main.py:30-37 | when the test holds, the chat endpoint gets the arguments unchanged; otherwise the arguments are reshaped for completion, and the completion endpoint gets them, or the attempt yields `None` when `messages` cannot be iterated as messages |
| `Request.MakeRequest` | build/lib/reliablegpt/main.py:25-41 | a missing `model` key gives `None`; otherwise the result is the chat endpoint's answer to the arguments as given, whatever the model; the arguments are left unchanged |
| `Request.Contents` | build/lib/reliablegpt/main.py:35 | one content per message, in message order |
| `Request.SplitJoin` | build/lib/reliablegpt/main.py:35 | joining with single spaces can be undone: splitting on spaces gives back the pieces, for a non-empty list whose pieces contain no space |
| `Request.FlattenKeepsContents` | build/lib/reliablegpt/main.py:35 | splitting the flattened prompt on spaces gives back every message content in list order, for a non-empty list whose contents contain no space |
| `Request.CompletionShape` | build/lib/reliablegpt/main.py:35-36 | when `messages` iterates as messages (a message list, or the empty string, which yields none), `prompt` is the flattened contents, `messages` is gone and every other key keeps its value; otherwise, where Python raises, the arguments are unchanged |
| `Request.EmptyStringMessagesGiveEmptyPrompt` | build/lib/reliablegpt/main.py:35-36 | an empty-string `messages` iterates as no messages: `prompt` becomes the empty string and `messages` is dropped |
| `Request.ToCompletionShape` | build/lib/reliablegpt/main.py:35-36 | succeeds exactly when `messages` iterates as messages (a message list or the empty string), and leaves the dictionary holding the completion-shaped arguments |
| `Fallback.Walk` | build/lib/reliablegpt/main.py:43-53 | the attempted models are a prefix of the chain, and the whole chain when nothing was found |
| `Fallback.WalkFirstSuccess` | build/lib/reliablegpt/main.py:47-52 | when the k-th model is the first to answer, the walk returns its answer and attempts exactly the first k+1 models |
| `Fallback.WalkExhausted` | build/lib/reliablegpt/main.py:47-53 | when every attempt fails (or the chain is empty) the walk returns `None` after attempting the whole chain |
| `Fallback.WalkAttemptsFailUntilFound` | build/lib/reliablegpt/main.py:47-52 | every attempted model but the last failed, and the last one produced the result |
| `Fallback.WalkFindsNothingIffAllFail` | build/lib/reliablegpt/main.py:47-53 | the walk returns `None` if and only if every model in the chain fails |
| `Fallback.WalkAppend` | build/lib/reliablegpt/main.py:71-72 | walking `a + b` walks `a`, and walks `b` only if `a` found nothing |
| `Fallback.FallbackRequest` | build/lib/reliablegpt/main.py:43-53 | the loop over fresh copies returns the walk's result and attempts the walk's models; the caller's `kwargs` is not in its frame and is left unchanged |
| `Policy.Classify` | build/lib/reliablegpt/main.py:66-80 | authentication exactly for the two authentication type names; context-length exactly for an invalid-request type with readable code `context_length_exceeded`; raises exactly when there is no payload, no `type`, or an unreadable `code` on an invalid request |
| `Policy.EffectiveStrategy` | build/lib/reliablegpt/main.py:64-65 | an empty strategy becomes the four-model default, a non-empty one is kept, and the result is never empty |
| `Policy.PlanFor` | build/lib/reliablegpt/main.py:67-87 | no retry exactly for authentication; the chain is `gpt-3.5-turbo-16k` followed by the strategy for a context-length failure, and exactly the strategy for any other invalid request or unrecognised type; the strategy is always the unchanged tail |
| `Policy.ContextLengthStartsElsewhere` | build/lib/reliablegpt/main.py:64-71 | after a context-length failure the first model tried differs from the default strategy's first |
| `Wrapper.AuthenticationGivesUp` | build/lib/reliablegpt/main.py:78-80 | an authentication error returns the graceful string with zero attempts |
| `Wrapper.ContextLengthTriesLongContextFirst` | build/lib/reliablegpt/main.py:70-76 | a context-length error attempts `gpt-3.5-turbo-16k` first; if it answers, that answer is returned; otherwise the rest is the walk over the strategy |
| `Wrapper.CatchAllWalksStrategy` | build/lib/reliablegpt/main.py:82-87 | other invalid requests and unrecognised types walk the unchanged strategy |
| `Wrapper.GracefulIffChainExhausted` | build/lib/reliablegpt/main.py:72-87 | for a retried failure, the graceful string is returned if and only if every model in the chain fails |
| `Wrapper.DeliveredIsFirstAnswer` | build/lib/reliablegpt/main.py:72-87 | a delivered response came from the last attempted model, and every earlier attempt failed |
| `Wrapper.RaisesOnlyOnUnreadableError` | build/lib/reliablegpt/main.py:66-70 | the handler raises if and only if the error payload, its `type`, or an invalid request's `code` cannot be read |
| `Wrapper.HandleError` | build/lib/reliablegpt/main.py:55-88 | the handler's outcome and attempts are those of classify, then policy, then walk |
| `Wrapper.ReliableCreate` | build/lib/reliablegpt/main.py:91-106 | a successful call is returned unchanged with no attempts; an exception without `error` escapes; otherwise the outcome is the handler's, and when the handler returns, its attempts are made twice |

## Left out

- The OpenAI calls `openai.ChatCompletion.create` and `openai.Completion.create` (main.py:32, main.py:37) are foreign network calls. They are the `Service` parameter.
- The service is a deterministic function, so the second handler call in the wrapper repeats the first walk exactly. The real service may answer the two walks differently.
- Console output through `print` and `termcolor` (main.py:31, 34, 39, 68, 79, 98-103) has no behavioural content.
- `time.time()` (main.py:45): its value is never used.
- `functools.wraps` (main.py:92) only copies metadata.
- The decorator itself is not returned as a function value. `ReliableCreate` is the call of the decorated function, with the wrapped function as a parameter.
- `CHAT_MODELS` and `TEXT_MODELS` (main.py:7-23) are never referenced.
- Messages always carry a string `content`. The missing-key and non-string cases of the join at main.py:35 are not modelled. They would fail the completion branch, which never runs anyway.
- Non-string sampling options (floats, booleans) are represented as `Number`. The engine never inspects them.
- A wrapped call `func` that returns Python `None` is not modelled: `Returned` always carries a real `Response`. For the fallback attempts, a service call that returns `None` is modelled: like a raised call, it is the service's `None`, and main.py:51 treats both alike.
- Positional arguments reach only the wrapped call. The fallback attempts see only the keyword arguments, as in the code.
