/**
  The failure handler (`handle_openAI_error`) and the interception wrapper
  (`reliable_create`): on a failure of the wrapped call, classify it, walk
  the chain the policy chooses, and return either the first result found or
  the graceful string.
*/
module Wrapper {
  import opened Common
  import opened Arguments
  import opened Fallback
  import opened Policy

  /** What the handler returns: a service result or the graceful string. */
  datatype Reply = Delivered(response: Response) | Graceful(message: string)

  /** A returned value, or an exception that escapes. */
  datatype Outcome = Returns(reply: Reply) | Raises(escape: Escape)

  /** An outcome together with the models attempted to reach it. */
  datatype Handling = Handling(outcome: Outcome, attempted: seq<string>)

  /** The reply after a walk: its result, or the graceful string. */
  function ReplyAfter(found: Option<Response>, graceful: string): Reply {
    if found.Some? then Delivered(found.value) else Graceful(graceful)
  }

  /** The handler as a specification, composed from the classifier, the
      policy and the walk. */
  function Handled(error: Option<ErrorObject>, params: map<string, Value>, strategy: seq<string>,
                   graceful: string, service: Service): Handling
  {
    match Classify(error)
    case Err(e) => Handling(Raises(e), [])
    case Ok(kind) =>
      match PlanFor(kind, strategy)
      case GiveUp => Handling(Returns(Graceful(graceful)), [])
      case Retry(chain) =>
        var w := Walk(service, chain, params);
        Handling(Returns(ReplyAfter(w.found, graceful)), w.attempted)
  }

  /** An authentication failure returns the graceful string and attempts
      no model. */
  lemma AuthenticationGivesUp(error: Option<ErrorObject>, params: map<string, Value>, strategy: seq<string>,
                              graceful: string, service: Service)
    requires error.Some? && TypeIn(error.value, AuthenticationTypes)
    ensures Handled(error, params, strategy, graceful, service) == Handling(Returns(Graceful(graceful)), [])
  {
  }

  /** A context-length failure tries the long-context model first; if that
      fails, the rest is exactly the walk over the strategy. */
  lemma {:induction false} ContextLengthTriesLongContextFirst(error: Option<ErrorObject>, params: map<string, Value>,
                                                              strategy: seq<string>, graceful: string, service: Service)
    requires Classify(error) == Ok(InvalidRequest(true))
    ensures var h := Handled(error, params, strategy, graceful, service);
      |h.attempted| > 0 && h.attempted[0] == LongContextModel
    ensures AttemptWith(service, params, LongContextModel).Some? ==>
      Handled(error, params, strategy, graceful, service) ==
        Handling(Returns(Delivered(AttemptWith(service, params, LongContextModel).value)), [LongContextModel])
    ensures AttemptWith(service, params, LongContextModel).None? ==>
      var w := Walk(service, EffectiveStrategy(strategy), params);
      Handled(error, params, strategy, graceful, service) ==
        Handling(Returns(ReplyAfter(w.found, graceful)), [LongContextModel] + w.attempted)
  {
    WalkAppend(service, [LongContextModel], EffectiveStrategy(strategy), params);
  }

  /** Every other invalid request, and every unrecognised `type`, walks the
      strategy unchanged. */
  lemma CatchAllWalksStrategy(error: Option<ErrorObject>, params: map<string, Value>, strategy: seq<string>,
                              graceful: string, service: Service)
    requires Classify(error) == Ok(InvalidRequest(false)) || Classify(error) == Ok(Unrecognised)
    ensures var w := Walk(service, EffectiveStrategy(strategy), params);
      Handled(error, params, strategy, graceful, service) == Handling(Returns(ReplyAfter(w.found, graceful)), w.attempted)
  {
  }

  /** The graceful string comes back exactly when no attempted model
      answered: for a retried failure, when every model of the chain fails. */
  lemma {:induction false} GracefulIffChainExhausted(error: Option<ErrorObject>, params: map<string, Value>,
                                                     strategy: seq<string>, graceful: string, service: Service)
    requires Classify(error).Ok? && PlanFor(Classify(error).value, strategy).Retry?
    ensures var chain := PlanFor(Classify(error).value, strategy).chain;
      Handled(error, params, strategy, graceful, service).outcome == Returns(Graceful(graceful)) <==>
        forall j :: 0 <= j < |chain| ==> AttemptWith(service, params, chain[j]).None?
  {
    var chain := PlanFor(Classify(error).value, strategy).chain;
    WalkFindsNothingIffAllFail(service, chain, params);
  }

  /** A delivered response is the first answer along the chain: every
      earlier attempted model failed and the last one answered with it. */
  lemma {:induction false} DeliveredIsFirstAnswer(error: Option<ErrorObject>, params: map<string, Value>,
                                                  strategy: seq<string>, graceful: string, service: Service)
    requires Handled(error, params, strategy, graceful, service).outcome.Returns?
    requires Handled(error, params, strategy, graceful, service).outcome.reply.Delivered?
    ensures var h := Handled(error, params, strategy, graceful, service);
      |h.attempted| > 0 &&
      AttemptWith(service, params, h.attempted[|h.attempted| - 1]) == Some(h.outcome.reply.response) &&
      forall j :: 0 <= j < |h.attempted| - 1 ==> AttemptWith(service, params, h.attempted[j]).None?
  {
    var chain := PlanFor(Classify(error).value, strategy).chain;
    WalkAttemptsFailUntilFound(service, chain, params);
  }

  /** The handler raises only when the error cannot be read: no payload, no
      `type` key, or an invalid request whose `code` cannot be read. */
  lemma RaisesOnlyOnUnreadableError(error: Option<ErrorObject>, params: map<string, Value>, strategy: seq<string>,
                                    graceful: string, service: Service)
    ensures Handled(error, params, strategy, graceful, service).outcome.Raises? <==>
      error.None? || TypeKey !in error.value.fields ||
      (TypeIn(error.value, InvalidRequestTypes) && !CodeReadable(error.value))
  {
  }

  /** `handle_openAI_error`: replace an empty strategy by the default one,
      classify the error, then either give up at once (authentication) or
      walk the chain and return its result or the graceful string. */
  method HandleError(error: Option<ErrorObject>, kwargs: Kwargs, strategy: seq<string>,
                     graceful: string, service: Service)
    returns (outcome: Outcome, ghost attempted: seq<string>)
    ensures outcome == Handled(error, kwargs.entries, strategy, graceful, service).outcome
    ensures attempted == Handled(error, kwargs.entries, strategy, graceful, service).attempted
  {
    var fallbackStrategy := strategy;
    if fallbackStrategy == [] {
      fallbackStrategy := DefaultStrategy;
    }
    attempted := [];
    var kind := Classify(error);
    if kind.Err? {
      return Raises(kind.error), attempted;
    }
    if kind.value == InvalidRequest(true) {
      fallbackStrategy := [LongContextModel] + fallbackStrategy;
      var result;
      result, attempted := FallbackRequest(fallbackStrategy, kwargs, service);
      if result == None {
        return Returns(Graceful(graceful)), attempted;
      } else {
        return Returns(Delivered(result.value)), attempted;
      }
    } else if kind.value == Authentication {
      return Returns(Graceful(graceful)), attempted;
    }
    // catch all
    var result;
    result, attempted := FallbackRequest(fallbackStrategy, kwargs, service);
    if result == None {
      outcome := Returns(Graceful(graceful));
    } else {
      outcome := Returns(Delivered(result.value));
    }
  }

  /** What a call of the wrapped function raises. */
  datatype Exception =
    | ApiException(error: Option<ErrorObject>)  // carries `.error`; `None` when the body had no error object
    | OtherException                            // has no `.error` attribute

  /** The wrapped function's outcome. */
  datatype CallResult = Returned(response: Response) | Raised(exception: Exception)

  /** The function being wrapped, applied to positional and keyword arguments. */
  type WrappedCall = (seq<Value>, map<string, Value>) -> CallResult

  /** `reliable_create(func)(*args, **kwargs)`. A result of the wrapped call
      is returned unchanged. On an exception the handler is called with its
      `error`, the default strategy and the default graceful string, and then
      called again with the same arguments, whose outcome is returned: every
      attempt of the chain is made twice. Reading `.error` from an exception
      that has none raises, and so does a handler call that raises; only the
      keyword arguments reach the fallback attempts. */
  method ReliableCreate(func: WrappedCall, args: seq<Value>, kwargs: Kwargs, service: Service)
    returns (outcome: Outcome, ghost attempted: seq<string>)
    ensures func(args, kwargs.entries).Returned? ==>
      outcome == Returns(Delivered(func(args, kwargs.entries).response))
    ensures func(args, kwargs.entries) == Raised(OtherException) ==>
      outcome == Raises(AttributeError("error"))
    ensures func(args, kwargs.entries).Raised? && func(args, kwargs.entries).exception.ApiException? ==>
      outcome == Handled(func(args, kwargs.entries).exception.error, kwargs.entries, [], DefaultGracefulString, service).outcome
    ensures !func(args, kwargs.entries).Raised? || func(args, kwargs.entries).exception.OtherException? ==>
      attempted == []
    ensures func(args, kwargs.entries).Raised? && func(args, kwargs.entries).exception.ApiException? ==>
      var h := Handled(func(args, kwargs.entries).exception.error, kwargs.entries, [], DefaultGracefulString, service);
      attempted == if h.outcome.Raises? then h.attempted else h.attempted + h.attempted
  {
    var call := func(args, kwargs.entries);
    if call.Returned? {
      return Returns(Delivered(call.response)), [];
    }
    if call.exception.OtherException? {
      return Raises(AttributeError("error")), [];
    }
    var first;
    first, attempted := HandleError(call.exception.error, kwargs, [], DefaultGracefulString, service);
    if first.Raises? {
      return first, attempted;
    }
    ghost var again;
    outcome, again := HandleError(call.exception.error, kwargs, [], DefaultGracefulString, service);
    attempted := attempted + again;
  }
}
