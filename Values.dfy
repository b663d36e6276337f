/** Values shared by both source trees: optional names, the
    exceptions the registration and execution paths raise, what awaiting a
    coroutine yields, and the bare functions a `processor(name)` decorator wraps. */
module Values {

  datatype Option<T> = None | Some(value: T)

  /** A processor's name, or the flow's marker: Python's `Optional[str]`. */
  type Name = Option<string>

  /** Python's `name or ''`: an absent name and the empty name both read as "". */
  function OrEmpty(n: Name): (r: string)
    ensures r == "" <==> (n == None || n == Some(""))
    ensures r != "" ==> n == Some(r)
  {
    match n
    case None => ""
    case Some(v) => v
  }

  /** The exception classes raised by the core. */
  datatype Error = ValueError | TypeError | AttributeError

  /** Outcome of a registration call that returns nothing or raises. */
  datatype Outcome = Pass | Fail(error: Error)

  /** Outcome of a constructor that yields an object or raises. */
  datatype Result<T> = Success(value: T) | Failure(error: Error)

  /** What a coroutine produces once it has been driven to completion: the
      boolean it returns and the context state it leaves behind. */
  datatype Awaitable<S> = Awaitable(result: bool, state: S)

  /** Driving a coroutine to completion: its boolean and the state it leaves. */
  function Await<S>(a: Awaitable<S>): (bool, S)
  {
    (a.result, a.state)
  }

  /** What a call hands back before anything awaits it, with the context
      state the call has left by then: a boolean, or a coroutine object whose
      body has not executed (an ordinary function may have changed the
      context before handing one back; a coroutine function's call has not). */
  datatype Returned<S> =
    | Value(verdict: bool, state: S)
    | CoroutineObject(coroutine: Awaitable<S>, state: S)

  /** Python truthiness of a returned value: a coroutine object is always
      truthy, whatever it would have resolved to. */
  predicate Truthy<S>(r: Returned<S>)
  {
    match r
    case Value(b, _) => b
    case CoroutineObject(_, _) => true
  }

  /** A bare function handed to a decorator: an ordinary function of the
      context (`def`, a lambda, any callable that is not a coroutine
      function), which may itself hand back an awaitable, or a coroutine
      function (`async def`) whose call must be awaited. */
  datatype Callable<!S> =
    | Plain(run: S -> Returned<S>)
    | Coroutine(start: S -> Awaitable<S>)

  /** What calling a bare function hands back, without awaiting it: calling
      a coroutine function only creates the coroutine, leaving the context as
      it was. */
  function CallFunction<S>(f: Callable<S>, s: S): Returned<S>
  {
    match f
    case Plain(g) => g(s)
    case Coroutine(g) => CoroutineObject(g(s), s)
  }

  /** One call of a processor's `process` by the engine: its position in the
      flow and the value the flow's marker held at the moment of the call. */
  datatype Invocation = Invocation(index: nat, marker: Name)
}
