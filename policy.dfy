/**
  Failure classification and fallback-chain policy (`handle_openAI_error`
  without the walk): read the error's `type` (and, for invalid requests,
  its `code`), and decide which chain of models to try, if any.
*/
module Policy {
  import opened Common

  /** The error payload handed to the handler (`e.error`). `fields` maps a
      key to its value, `None` for a JSON null. The library's error object
      also answers attribute reads such as `.code`; a plain dictionary does
      not (`attributeAccess` false). */
  datatype ErrorObject = ErrorObject(fields: map<string, Option<string>>, attributeAccess: bool)

  /** A Python exception raised while handling the failure, which then
      escapes the wrapper. */
  datatype Escape =
    | KeyError(key: string)
    | AttributeError(name: string)
    | NotSubscriptable

  /** The three classes the handler tells apart. */
  datatype FailureKind =
    | InvalidRequest(contextLengthExceeded: bool)
    | Authentication
    | Unrecognised

  const TypeKey: string := "type"
  const CodeKey: string := "code"
  const ContextLengthExceeded: string := "context_length_exceeded"
  const InvalidRequestTypes: set<string> := {"invalid_request_error", "InvalidRequestError"}
  const AuthenticationTypes: set<string> := {"authentication_error", "AuthenticationError"}

  /** The model with the larger context window tried first after a
      context-length failure. */
  const LongContextModel: string := "gpt-3.5-turbo-16k"

  /** The chain used when the caller supplies an empty one. */
  const DefaultStrategy: seq<string> := ["gpt-3.5-turbo", "text-davinci-003", "gpt-4", "text-davinci-002"]

  /** The message returned instead of a result when no model answers. */
  const DefaultGracefulString: string := "Sorry, the OpenAI (GPT) failed"

  /** The error's `type` is present and one of `names`. */
  predicate TypeIn(e: ErrorObject, names: set<string>) {
    TypeKey in e.fields && e.fields[TypeKey].Some? && e.fields[TypeKey].value in names
  }

  /** `e.code` can be read: an attribute-capable object holding the key. */
  predicate CodeReadable(e: ErrorObject) {
    e.attributeAccess && CodeKey in e.fields
  }

  /** Classification. `error['type']` raises on a missing payload or a
      missing key; `error.code`, read only for invalid requests, raises when
      it cannot be read. Any other `type` value (a null included) is
      unrecognised. */
  function Classify(error: Option<ErrorObject>): (r: Result<FailureKind, Escape>)
    ensures r.Err? <==>
      error.None? || TypeKey !in error.value.fields ||
      (TypeIn(error.value, InvalidRequestTypes) && !CodeReadable(error.value))
    ensures r == Ok(Authentication) <==> error.Some? && TypeIn(error.value, AuthenticationTypes)
    ensures r == Ok(InvalidRequest(true)) <==>
      error.Some? && TypeIn(error.value, InvalidRequestTypes) && CodeReadable(error.value) &&
      error.value.fields[CodeKey] == Some(ContextLengthExceeded)
    ensures r == Ok(InvalidRequest(false)) <==>
      error.Some? && TypeIn(error.value, InvalidRequestTypes) && CodeReadable(error.value) &&
      error.value.fields[CodeKey] != Some(ContextLengthExceeded)
  {
    if error.None? then Err(NotSubscriptable)
    else if TypeKey !in error.value.fields then Err(KeyError(TypeKey))
    else if TypeIn(error.value, InvalidRequestTypes) then
      if !CodeReadable(error.value) then Err(AttributeError(CodeKey))
      else Ok(InvalidRequest(error.value.fields[CodeKey] == Some(ContextLengthExceeded)))
    else if TypeIn(error.value, AuthenticationTypes) then Ok(Authentication)
    else Ok(Unrecognised)
  }

  /** An empty strategy is replaced by the default list; any other is used
      as given. The result is never empty. */
  function EffectiveStrategy(strategy: seq<string>): (r: seq<string>)
    ensures r != []
    ensures strategy == [] ==> r == DefaultStrategy
    ensures strategy != [] ==> r == strategy
  {
    if strategy == [] then DefaultStrategy else strategy
  }

  /** What the handler does about a failure. */
  datatype Plan = GiveUp | Retry(chain: seq<string>)

  /** The policy: no retry for an authentication failure; the long-context
      model in front of the strategy for a context-length failure; the
      strategy itself for everything else (the catch-all). The strategy is
      always kept, unchanged, as the end of the chain. */
  function PlanFor(kind: FailureKind, strategy: seq<string>): (p: Plan)
    ensures p.GiveUp? <==> kind == Authentication
    ensures kind == InvalidRequest(true) ==> p == Retry([LongContextModel] + EffectiveStrategy(strategy))
    ensures kind == InvalidRequest(false) || kind == Unrecognised ==> p == Retry(EffectiveStrategy(strategy))
    ensures p.Retry? ==>
      var s := EffectiveStrategy(strategy);
      |s| <= |p.chain| && p.chain[|p.chain| - |s|..] == s
    ensures p.Retry? && p.chain[0] == LongContextModel && |p.chain| > |EffectiveStrategy(strategy)|
      <==> kind == InvalidRequest(true)
  {
    match kind
    case Authentication => GiveUp
    case InvalidRequest(true) => Retry([LongContextModel] + EffectiveStrategy(strategy))
    case _ => Retry(EffectiveStrategy(strategy))
  }

  /** A context-length failure puts a model in front that is not the
      default strategy's first. */
  lemma ContextLengthStartsElsewhere()
    ensures PlanFor(InvalidRequest(true), []).chain[0] != DefaultStrategy[0]
  {
  }
}
