/**
  The fallback chain walk (`fallback_request`): try each model of the chain
  in order on a fresh copy of the caller's arguments and stop at the first
  attempt that yields a result.
*/
module Fallback {
  import opened Common
  import opened Arguments
  import opened Request

  /** What one attempt with `model` yields: the caller's arguments with
      `model` substituted, sent to the chat endpoint (MakeRequest). */
  function AttemptWith(service: Service, params: map<string, Value>, model: string): Option<Response> {
    service(ChatCompletion, WithModel(params, model))
  }

  /** The result of a walk, and the models attempted, in order. */
  datatype WalkResult = WalkResult(found: Option<Response>, attempted: seq<string>)

  /** The walk as a specification: the attempted models are a prefix of the
      chain, and the whole chain when nothing was found. */
  function Walk(service: Service, chain: seq<string>, params: map<string, Value>): (w: WalkResult)
    ensures |w.attempted| <= |chain| && w.attempted == chain[..|w.attempted|]
    ensures w.found.None? ==> w.attempted == chain
    ensures w.found.Some? ==> |w.attempted| > 0
    decreases |chain|
  {
    if chain == [] then WalkResult(None, [])
    else
      var r := AttemptWith(service, params, chain[0]);
      if r.Some? then WalkResult(r, [chain[0]])
      else
        var rest := Walk(service, chain[1..], params);
        WalkResult(rest.found, [chain[0]] + rest.attempted)
  }

  /** First success: when the k-th model is the first whose attempt yields a
      result, the walk returns that result and attempts exactly the first
      k+1 models, none after. */
  lemma {:induction false} WalkFirstSuccess(service: Service, chain: seq<string>, params: map<string, Value>, k: nat)
    requires k < |chain|
    requires forall j :: 0 <= j < k ==> AttemptWith(service, params, chain[j]).None?
    requires AttemptWith(service, params, chain[k]).Some?
    ensures Walk(service, chain, params) == WalkResult(AttemptWith(service, params, chain[k]), chain[..k + 1])
  {
    if k > 0 {
      WalkFirstSuccess(service, chain[1..], params, k - 1);
      assert [chain[0]] + chain[1..][..k] == chain[..k + 1];
    }
  }

  /** Exhaustion: when every attempt fails the walk finds nothing and has
      attempted the whole chain (in particular, an empty chain). */
  lemma {:induction false} WalkExhausted(service: Service, chain: seq<string>, params: map<string, Value>)
    requires forall j :: 0 <= j < |chain| ==> AttemptWith(service, params, chain[j]).None?
    ensures Walk(service, chain, params) == WalkResult(None, chain)
  {
    if chain != [] {
      WalkExhausted(service, chain[1..], params);
      assert [chain[0]] + chain[1..] == chain;
    }
  }

  /** Conversely, every attempted model but the last failed, and the last
      one yielded what the walk found. */
  lemma {:induction false} WalkAttemptsFailUntilFound(service: Service, chain: seq<string>, params: map<string, Value>)
    ensures forall j :: 0 <= j < |Walk(service, chain, params).attempted| ==>
      AttemptWith(service, params, Walk(service, chain, params).attempted[j]) ==
        if j == |Walk(service, chain, params).attempted| - 1 then Walk(service, chain, params).found else None
  {
    if chain != [] && AttemptWith(service, params, chain[0]).None? {
      var rest := Walk(service, chain[1..], params);
      WalkAttemptsFailUntilFound(service, chain[1..], params);
      var w := Walk(service, chain, params);
      assert w.attempted == [chain[0]] + rest.attempted;
      forall j | 1 <= j < |w.attempted|
        ensures AttemptWith(service, params, w.attempted[j]) == if j == |w.attempted| - 1 then w.found else None
      {
        assert w.attempted[j] == rest.attempted[j - 1];
        assert w.found == rest.found;
        assert AttemptWith(service, params, rest.attempted[j - 1]) ==
          if j - 1 == |rest.attempted| - 1 then rest.found else None;
      }
    }
  }

  /** The walk finds nothing exactly when every model of the chain fails. */
  lemma {:induction false} WalkFindsNothingIffAllFail(service: Service, chain: seq<string>, params: map<string, Value>)
    ensures Walk(service, chain, params).found.None? <==>
            forall j :: 0 <= j < |chain| ==> AttemptWith(service, params, chain[j]).None?
  {
    var w := Walk(service, chain, params);
    if w.found.None? {
      WalkAttemptsFailUntilFound(service, chain, params);
    } else {
      WalkAttemptsFailUntilFound(service, chain, params);
      var last := |w.attempted| - 1;
      assert w.attempted[last] == chain[last];
    }
  }

  /** Walking `a + b` walks `a` and, only if that finds nothing, goes on to
      walk `b`. */
  lemma {:induction false} WalkAppend(service: Service, a: seq<string>, b: seq<string>, params: map<string, Value>)
    ensures Walk(service, a + b, params) ==
      var wa := Walk(service, a, params);
      if wa.found.Some? then wa
      else var wb := Walk(service, b, params); WalkResult(wb.found, a + wb.attempted)
  {
    if a == [] {
      assert a + b == b;
    } else {
      var ab := a + b;
      assert ab[0] == a[0];
      assert ab[1..] == a[1..] + b;
      var r := AttemptWith(service, params, a[0]);
      if r.None? {
        var tail := Walk(service, a[1..] + b, params);
        assert Walk(service, ab, params) == WalkResult(tail.found, [a[0]] + tail.attempted);
        var wa' := Walk(service, a[1..], params);
        assert Walk(service, a, params) == WalkResult(wa'.found, [a[0]] + wa'.attempted);
        WalkAppend(service, a[1..], b, params);
        if wa'.found.None? {
          var wb := Walk(service, b, params);
          assert tail == WalkResult(wb.found, a[1..] + wb.attempted);
          assert [a[0]] + (a[1..] + wb.attempted) == a + wb.attempted;
        }
      }
    }
  }

  /** `fallback_request`: for each model in order, deep-copy the caller's
      arguments, set `model`, make one attempt, and return the first result
      that is not `None`; `None` when the chain is exhausted. `attempted`
      records the models tried. The caller's `kwargs` is not modified: only
      fresh copies are written. */
  method FallbackRequest(strategy: seq<string>, kwargs: Kwargs, service: Service)
    returns (result: Option<Response>, ghost attempted: seq<string>)
    ensures result == Walk(service, strategy, kwargs.entries).found
    ensures attempted == Walk(service, strategy, kwargs.entries).attempted
  {
    attempted := [];
    for i := 0 to |strategy|
      invariant attempted == strategy[..i]
      invariant forall j :: 0 <= j < i ==> AttemptWith(service, kwargs.entries, strategy[j]).None?
    {
      var model := strategy[i];
      var newKwargs := new Kwargs.DeepCopy(kwargs);
      newKwargs.Set(ModelKey, Text(model));
      result := MakeRequest(newKwargs, service);
      attempted := attempted + [model];
      if result.Some? {
        WalkFirstSuccess(service, strategy, kwargs.entries, i);
        return;
      }
    }
    WalkExhausted(service, strategy, kwargs.entries);
    result := None;
  }
}
