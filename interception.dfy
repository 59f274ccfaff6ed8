/** `promiseTracker`: the proxy layer that reports every promise created by
    the user's code to a set of handlers. The proxy traps are modelled as
    functions from the trapped call's inputs to the value the trap returns;
    the promise the intercepted call builds is an input. */
module Interception {
  import opened Wrappers
  import opened Js

  /** `isPromise`: truthy, with truthy `then` and `catch`. */
  predicate IsPromise(o: JsValue)
  {
    Truthy(o) && Truthy(Get(o, "then")) && Truthy(Get(o, "catch"))
  }

  /** `getUntrackedPromise`: the hidden target when there is one, otherwise
      the argument itself. */
  function GetUntrackedPromise(promise: JsValue): (r: JsValue)
    ensures Truthy(Get(promise, UntrackedKey)) ==> r == Get(promise, UntrackedKey)
    ensures !Truthy(Get(promise, UntrackedKey)) ==> r == promise
  {
    Or(Get(promise, UntrackedKey), promise)
  }

  /** A tracked promise hands out exactly the promise it was built around,
      and a promise that is not tracked (no hidden key) is its own untracked
      promise. */
  lemma UntrackRoundTrip(p: JsValue)
    ensures Truthy(p) ==> GetUntrackedPromise(Tracked(p)) == p
    ensures p.Obj? && UntrackedKey !in p.props ==> GetUntrackedPromise(p) == p
  {
  }

  /** The handlers object given to `promiseTracker`. Each callback returns a
      replacement promise; a falsy result keeps the original. */
  datatype Handlers = Handlers(
    result: Option<(string, JsValue, seq<JsValue>) -> JsValue>,
    ctor: Option<(JsValue, seq<JsValue>) -> JsValue>,
    statics: Option<(string, JsValue, Option<seq<JsValue>>) -> JsValue>,
    methods: Option<(string, JsValue, Option<seq<JsValue>>, JsValue) -> JsValue>,
    lazyPromiseArgument: bool)

  /** `notify`: promises reached through a promise (`p.then`) go to
      `methods`, all others (`Promise.resolve`) to `statics`. */
  function Notify(h: Handlers, promise: JsValue, parent: JsValue, propName: string, args: Option<seq<JsValue>>): (r: JsValue)
    ensures IsPromise(parent) && h.methods.Some? && Truthy(h.methods.value(propName, promise, args, parent)) ==>
      r == h.methods.value(propName, promise, args, parent)
    ensures !IsPromise(parent) && h.statics.Some? && Truthy(h.statics.value(propName, promise, args)) ==>
      r == h.statics.value(propName, promise, args)
    ensures IsPromise(parent) && (h.methods.None? || !Truthy(h.methods.value(propName, promise, args, parent))) ==>
      r == promise
    ensures !IsPromise(parent) && (h.statics.None? || !Truthy(h.statics.value(propName, promise, args))) ==>
      r == promise
  {
    if IsPromise(parent) then
      if h.methods.Some? then Or(h.methods.value(propName, promise, args, parent), promise) else promise
    else
      if h.statics.Some? then Or(h.statics.value(propName, promise, args), promise) else promise
  }

  /** Routing: for a promise parent the `statics` handler is never consulted,
      and for any other parent the `methods` handler is never consulted. */
  lemma NotifyRouting(h1: Handlers, h2: Handlers, promise: JsValue, parent: JsValue, propName: string, args: Option<seq<JsValue>>)
    ensures IsPromise(parent) && h1.methods == h2.methods ==>
      Notify(h1, promise, parent, propName, args) == Notify(h2, promise, parent, propName, args)
    ensures !IsPromise(parent) && h1.statics == h2.statics ==>
      Notify(h1, promise, parent, propName, args) == Notify(h2, promise, parent, propName, args)
  {
  }

  /** `watchArguments(args, onPromise)` over the first `n` arguments: the
      mapped arguments (each callback replaced by its wrapper) and the indices
      reported to `onPromise` while mapping, in order. */
  function WatchArguments(args: seq<JsValue>, n: nat): (r: (seq<JsValue>, seq<nat>))
    requires n <= |args|
    ensures |r.0| == n
    ensures forall i :: 0 <= i < n ==> r.0[i] == if IsFunction(args[i]) then Watched(args[i], i) else args[i]
  {
    if n == 0 then ([], [])
    else
      var (mapped, reported) := WatchArguments(args, n - 1);
      var arg := args[n - 1];
      (mapped + [if IsFunction(arg) then Watched(arg, n - 1) else arg],
       reported + (if IsPromise(arg) then [n - 1] else []))
  }

  /** `onPromise` is called once for each promise argument, in argument
      order, and for nothing else. */
  lemma {:induction false} WatchArgumentsReports(args: seq<JsValue>, n: nat)
    requires n <= |args|
    ensures forall i :: i in WatchArguments(args, n).1 <==> 0 <= i < n && IsPromise(args[i])
    ensures forall i, j :: 0 <= i < j < |WatchArguments(args, n).1| ==>
      WatchArguments(args, n).1[i] < WatchArguments(args, n).1[j]
  {
    if n > 0 {
      WatchArgumentsReports(args, n - 1);
      var reported := WatchArguments(args, n - 1).1;
      assert forall k :: 0 <= k < |reported| ==> reported[k] in reported;
    }
  }

  /** Calling the wrapper built for callback `w.index`: it returns exactly
      what the original callback returned (`result`), and reports its index
      when that result is a promise. */
  function CallWatched(w: JsValue, result: JsValue): (r: (JsValue, Option<nat>))
    requires w.Watched?
    ensures r.0 == result
    ensures r.1.Some? <==> IsPromise(result)
    ensures r.1.Some? ==> r.1.value == w.index
  {
    (result, if IsPromise(result) then Some(w.index) else None)
  }

  /** The wrapper of an argument behaves like the argument: whatever the
      callback returns when called, its wrapper returns too. */
  lemma WrappedCallbackTransparent(args: seq<JsValue>, i: nat, calledResult: JsValue)
    requires i < |args| && IsFunction(args[i])
    ensures WatchArguments(args, |args|).0[i].Watched?
    ensures WatchArguments(args, |args|).0[i].callback == args[i]
    ensures CallWatched(WatchArguments(args, |args|).0[i], calledResult).0 == calledResult
  {
  }

  /** `shouldTrack`: false when the stack trace has at most three lines. */
  predicate ShouldTrack(stackLines: nat)
  {
    stackLines > 3
  }

  /** What the `get` trap returns for `target[propName]`. */
  datatype GetOutcome =
    | Returned(value: JsValue)
    | Intercepted(original: JsValue)

  /** The `get` trap (`getPropHandler`): the hidden key yields the target, a
      promise-valued property is reported and tracked, a function-valued one
      is replaced by an intercepting wrapper, anything else is returned as is. */
  function GetTrap(h: Handlers, target: JsValue, propName: string): (r: GetOutcome)
    ensures propName == UntrackedKey ==> r == Returned(target)
    ensures propName != UntrackedKey && IsPromise(Get(target, propName)) ==>
      r == Returned(Tracked(Notify(h, Get(target, propName), target, propName, None)))
    ensures propName != UntrackedKey && !IsPromise(Get(target, propName)) && IsFunction(Get(target, propName)) ==>
      r == Intercepted(Get(target, propName))
    ensures propName != UntrackedKey && !IsPromise(Get(target, propName)) && !IsFunction(Get(target, propName)) ==>
      r == Returned(Get(target, propName))
  {
    var value := Get(target, propName);
    if propName == UntrackedKey then Returned(target)
    else if IsPromise(value) then Returned(Tracked(Notify(h, value, target, propName, None)))
    else if IsFunction(value) then Intercepted(value)
    else Returned(value)
  }

  /** The arguments the intercepted function and the handlers see: the
      watched arguments with a `lazyPromiseArgument` handler, the caller's
      own otherwise. */
  function Passed(h: Handlers, args: seq<JsValue>): (passed: seq<JsValue>)
    ensures |passed| == |args|
    ensures forall i :: 0 <= i < |args| ==>
      passed[i] == if h.lazyPromiseArgument && IsFunction(args[i]) then Watched(args[i], i) else args[i]
  {
    if h.lazyPromiseArgument then WatchArguments(args, |args|).0 else args
  }

  /** Calling an intercepting wrapper with `args`. `apply` is the original
      function applied to the (possibly wrapped) arguments. Returns the value
      handed back to the caller and the argument indices reported to
      `lazyPromiseArgument` while the arguments were wrapped. A promise
      result is reported to the handlers with the arguments the function
      itself received, wrappers included, and the handlers' answer is
      tracked. */
  function CallIntercepted(h: Handlers, target: JsValue, propName: string, args: seq<JsValue>,
                           apply: seq<JsValue> -> JsValue, stackLines: nat): (r: (JsValue, seq<nat>))
    ensures r.1 == if h.lazyPromiseArgument then WatchArguments(args, |args|).1 else []
    ensures !ShouldTrack(stackLines) ==> r.0 == apply(Passed(h, args))
    ensures ShouldTrack(stackLines) && !IsPromise(apply(Passed(h, args))) ==> r.0 == apply(Passed(h, args))
    ensures ShouldTrack(stackLines) && IsPromise(apply(Passed(h, args))) ==>
      r.0 == Tracked(Notify(h, apply(Passed(h, args)), target, propName, Some(Passed(h, args))))
  {
    var (passed, reported) := if h.lazyPromiseArgument then WatchArguments(args, |args|) else (args, []);
    var result := apply(passed);
    if !ShouldTrack(stackLines) then (result, reported)
    else if IsPromise(result) then (Tracked(Notify(h, result, target, propName, Some(passed))), reported)
    else (result, reported)
  }

  /** With a `lazyPromiseArgument` handler, a promise-returning method call
      such as `p.then(cb)` reaches `methods` with `cb` replaced by its
      wrapper, and the handler's truthy answer is what the caller gets back,
      tracked. */
  lemma MethodsSeeWrappedCallbacks(h: Handlers, target: JsValue, propName: string, args: seq<JsValue>,
                                   apply: seq<JsValue> -> JsValue, stackLines: nat, i: nat)
    requires h.lazyPromiseArgument && ShouldTrack(stackLines) && IsPromise(target) && h.methods.Some?
    requires IsPromise(apply(Passed(h, args))) && i < |args| && IsFunction(args[i])
    requires Truthy(h.methods.value(propName, apply(Passed(h, args)), Some(Passed(h, args)), target))
    ensures Passed(h, args)[i] == Watched(args[i], i)
    ensures CallIntercepted(h, target, propName, args, apply, stackLines).0 ==
      Tracked(h.methods.value(propName, apply(Passed(h, args)), Some(Passed(h, args)), target))
  {
  }

  /** The `construct` trap (`new Promise(...)`): `created` is the promise the
      real constructor builds. Untracked when the stack is short; otherwise
      the `ctor` handler may replace it and the result is tracked. */
  function Construct(h: Handlers, args: seq<JsValue>, created: JsValue, stackLines: nat): (r: JsValue)
    ensures !ShouldTrack(stackLines) ==> r == created
    ensures ShouldTrack(stackLines) ==> r.Tracked?
    ensures ShouldTrack(stackLines) && (h.ctor.None? || !Truthy(h.ctor.value(created, args))) ==>
      r == Tracked(created)
    ensures ShouldTrack(stackLines) && h.ctor.Some? && Truthy(h.ctor.value(created, args)) ==>
      r == Tracked(h.ctor.value(created, args))
  {
    if !ShouldTrack(stackLines) then created
    else
      var promise := if h.ctor.Some? then Or(h.ctor.value(created, args), created) else created;
      Tracked(promise)
  }

  /** `locals.trackPromise(promise, functionName, args)`: the `result`
      handler may replace the promise; the result is always tracked. */
  function TrackPromise(h: Handlers, promise: JsValue, functionName: string, args: seq<JsValue>): (r: JsValue)
    ensures r.Tracked?
    ensures (h.result.None? || !Truthy(h.result.value(functionName, promise, args))) ==> r.target == promise
    ensures h.result.Some? && Truthy(h.result.value(functionName, promise, args)) ==>
      r.target == h.result.value(functionName, promise, args)
  {
    Tracked(if h.result.Some? then Or(h.result.value(functionName, promise, args), promise) else promise)
  }

  /** The values the executer wrapper installs: the proxied `Promise`
      constructor and the `trackPromise` function. */
  const PromiseKey := "Promise"
  const TrackPromiseKey := "trackPromise"

  /** The function returned by `promiseTracker(handlers)(executer)`: sets
      `locals.Promise` and `locals.trackPromise`, then returns what the
      executer returns for those locals. */
  function RunExecuter<R>(executer: map<string, JsValue> -> R, locals: map<string, JsValue>,
                          proxiedPromise: JsValue, trackPromise: JsValue): (r: R)
    ensures exists seen: map<string, JsValue> ::
      r == executer(seen) && PromiseKey in seen && seen[PromiseKey] == proxiedPromise &&
      TrackPromiseKey in seen && seen[TrackPromiseKey] == trackPromise &&
      (forall k :: k in locals && k != PromiseKey && k != TrackPromiseKey ==> k in seen && seen[k] == locals[k])
  {
    var seen := locals[PromiseKey := proxiedPromise][TrackPromiseKey := trackPromise];
    assert PromiseKey != TrackPromiseKey;
    executer(seen)
  }
}
