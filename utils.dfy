/** The helpers of the utility module: `pipe`, `isDefined`, `assert` and the
    once-per-animation-frame throttle `useRafThrottle`. */
module Utils {
  import opened Wrappers

  /** `pipe(start, f1, ..., fn)`: `fns.reduce((prev, fn) => fn(prev), start)`.
      The source's overloads let the type change from step to step; here all
      steps share one type. */
  function Pipe<T>(start: T, fns: seq<T -> T>): (r: T)
    ensures fns == [] ==> r == start
    ensures |fns| == 1 ==> r == fns[0](start)
  {
    if fns == [] then start else Pipe(fns[0](start), fns[1..])
  }

  /** Adding a function at the end of a pipe applies it to the pipe's result:
      the functions run left to right. */
  lemma {:induction false} PipeSnoc<T>(start: T, fns: seq<T -> T>, f: T -> T)
    ensures Pipe(start, fns + [f]) == f(Pipe(start, fns))
  {
    if fns != [] {
      assert (fns + [f])[1..] == fns[1..] + [f];
      PipeSnoc(fns[0](start), fns[1..], f);
    }
  }

  /** A pipe over `fs + gs` pipes the result of `fs` through `gs`. */
  lemma {:induction false} PipeConcat<T>(start: T, fs: seq<T -> T>, gs: seq<T -> T>)
    ensures Pipe(start, fs + gs) == Pipe(Pipe(start, fs), gs)
  {
    if fs == [] {
      assert fs + gs == gs;
    } else {
      assert (fs + gs)[1..] == fs[1..] + gs;
      PipeConcat(fs[0](start), fs[1..], gs);
    }
  }

  /** A JavaScript value that may also be `null` or `undefined`. */
  datatype Nullable<T> = Undefined | Null | Defined(value: T)

  /** `errorMessage || default`: an empty custom message counts as absent. */
  function MessageOr(errorMessage: Option<string>, default: string): (m: string)
    ensures errorMessage.Some? && errorMessage.value != "" ==> m == errorMessage.value
    ensures (errorMessage.None? || errorMessage.value == "") ==> m == default
  {
    if errorMessage.Some? && errorMessage.value != "" then errorMessage.value else default
  }

  const DefinedMessage := "Value must be defined."
  const NotNullMessage := "Value cannot be null or undefined."

  /** `isDefined`: throws only on `undefined` (`null` passes), otherwise true. */
  function IsDefined<T>(o: Nullable<T>, errorMessage: Option<string>): (r: Result<bool>)
    ensures r.Err? <==> o.Undefined?
    ensures r.Ok? ==> r.value
    ensures r.Err? ==> r.message == MessageOr(errorMessage, DefinedMessage)
  {
    if o.Undefined? then Err(MessageOr(errorMessage, DefinedMessage)) else Ok(true)
  }

  /** `assert`: returns its argument unchanged unless it is `null` or `undefined`. */
  function Assert<T>(o: Nullable<T>, errorMessage: Option<string>): (r: Result<T>)
    ensures r.Ok? <==> o.Defined?
    ensures r.Ok? ==> r.value == o.value
    ensures r.Err? ==> r.message == MessageOr(errorMessage, NotNullMessage)
  {
    match o
    case Defined(v) => Ok(v)
    case _ => Err(MessageOr(errorMessage, NotNullMessage))
  }

  /** A run scheduled for the next animation frame: the handle (the promise)
      returned to every caller until the frame, and the arguments of the call
      that scheduled it. */
  datatype Pending<A> = Pending(handle: nat, args: A)

  /** `useRafThrottle()(fn)`: the `promise` slot of the returned `atNextRaf`.
      `nextHandle` is the identity the next `new Promise` gets. */
  class RafThrottle<A, R> {
    const fn: A -> R
    var pending: Option<Pending<A>>
    var nextHandle: nat

    ghost predicate Valid()
      reads this
    {
      pending.Some? ==> pending.value.handle < nextHandle
    }

    constructor (fn: A -> R)
      ensures Valid() && this.fn == fn && pending == None && nextHandle == 0
    {
      this.fn := fn;
      pending := None;
      nextHandle := 0;
    }

    /** `atNextRaf(...args)`: while a run is pending, every call returns its
        handle and schedules nothing; otherwise a fresh run is scheduled with
        this call's arguments. */
    method Call(args: A) returns (h: nat)
      requires Valid()
      modifies this
      ensures Valid()
      ensures old(pending).Some? ==>
        h == old(pending).value.handle && pending == old(pending) && nextHandle == old(nextHandle)
      ensures old(pending).None? ==>
        h == old(nextHandle) && pending == Some(Pending(h, args)) && nextHandle == old(nextHandle) + 1
    {
      if pending.Some? {
        h := pending.value.handle;
      } else {
        h := nextHandle;
        pending := Some(Pending(h, args));
        nextHandle := nextHandle + 1;
      }
    }

    /** The animation-frame callback: clears the slot first, then resolves the
        pending handle with `fn` applied to the scheduling call's arguments. */
    method Frame() returns (resolved: Option<(nat, R)>)
      requires Valid()
      modifies this
      ensures Valid()
      ensures pending == None && nextHandle == old(nextHandle)
      ensures old(pending).None? ==> resolved == None
      ensures old(pending).Some? ==>
        resolved == Some((old(pending).value.handle, fn(old(pending).value.args)))
    {
      var run := pending;
      pending := None;
      if run.Some? {
        resolved := Some((run.value.handle, fn(run.value.args)));
      } else {
        resolved := None;
      }
    }
  }

  /** Two calls in one frame share one run that uses the first call's
      arguments; the first call after the frame gets a fresh handle. */
  method CoalescingScenario<A, R>(fn: A -> R, a1: A, a2: A, a3: A)
    returns (h1: nat, h2: nat, first: Option<(nat, R)>, h3: nat)
    ensures h1 == h2
    ensures first == Some((h1, fn(a1)))
    ensures h3 > h1
  {
    var t := new RafThrottle(fn);
    h1 := t.Call(a1);
    h2 := t.Call(a2);
    first := t.Frame();
    h3 := t.Call(a3);
  }
}
