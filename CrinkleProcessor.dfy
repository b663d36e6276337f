/** The processor abstraction of the current package (crinkle/processor.py).

    Every processor is an instance of `ProcessorBase`: it has a name and a
    `process` operation from the shared context to a stop/continue verdict.
    `ProcessorBaseAsync` derives from `ProcessorBase`, so the suspending kind
    is just a second variant of the same abstraction. The context is an opaque
    state `S`; a processor's effect on it is the state its call leaves behind. */
module CrinkleProcessor {
  import opened Values

  /** The engine tells the two kinds apart by `process` itself: `Async` when
      `process` is a coroutine function (as in `FunctionProcessorAsync`), so
      the engine awaits it; `Sync` otherwise (as in `FunctionProcessor`), and
      the engine uses whatever `process` hands back as it is. */
  datatype Processor<!S> =
    | Sync(name: Name, process: S -> Returned<S>)
    | Async(name: Name, start: S -> Awaitable<S>)

  /** Running one processor on the context as the engine does: a plain
      `process` is called and its result taken by truthiness (a coroutine
      object it hands back is truthy and never runs); an async `process` is
      awaited to completion. The verdict and the state the call leaves. */
  function Process<S>(p: Processor<S>, s: S): (bool, S)
  {
    match p
    case Sync(_, f) => (Truthy(f(s)), f(s).state)
    case Async(_, f) => Await(f(s))
  }

  /** What the engine obtains from a bare function registered through the
      decorator: a coroutine function is awaited; any other function's result
      is taken by truthiness. */
  function Completed<S>(f: Callable<S>, s: S): (bool, S)
  {
    match f
    case Plain(g) => (Truthy(g(s)), g(s).state)
    case Coroutine(g) => Await(g(s))
  }

  /** `FunctionProcessor(func, name='')`: a plain processor whose `process`
      returns exactly what `func` returns on the same context, so the engine
      sees `func`'s boolean, or a truthy coroutine object that stops the run
      without running. */
  function FunctionProcessor<S(!new)>(func: S -> Returned<S>, name: Name := Some("")): (p: Processor<S>)
    ensures p.Sync? && p.name == name
    ensures forall s :: func(s).Value? ==> Process(p, s) == (func(s).verdict, func(s).state)
    ensures forall s :: func(s).CoroutineObject? ==> Process(p, s) == (true, func(s).state)
  {
    Sync(name, func)
  }

  /** `FunctionProcessorAsync(func, name='')`: a suspending processor whose
      `process` resolves to the awaited result of `func` on the same context. */
  function FunctionProcessorAsync<S(!new)>(func: S -> Awaitable<S>, name: Name := Some("")): (p: Processor<S>)
    ensures p.Async? && p.name == name
    ensures forall s :: Process(p, s) == Await(func(s))
  {
    Async(name, func)
  }
}
