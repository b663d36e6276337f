/** The processor abstraction of the earlier tree (src/processor.py).

    Here `Processor` (plain) and `ProcessorAsync` are siblings below
    `AbstractProcessorBase`: an async processor is NOT a `Processor`. And
    nothing awaits a call of `process`: what the engine receives from a call is
    either a boolean or a coroutine object that has not run yet. */
module SrcProcessor {
  import opened Values

  /** An instance of `AbstractProcessorBase`. `Processor` covers
      `FunctionProcessor` (and any subclass of `Processor`): its `process`
      returns what the stored function returns, which for a coroutine function
      is an unstarted coroutine. `ProcessorAsync` covers
      `FunctionProcessorAsync`: its `process` is itself a coroutine function. */
  datatype AbstractProcessor<!S> =
    | Processor(name: Name, func: Callable<S>)
    | ProcessorAsync(name: Name, start: S -> Awaitable<S>)

  /** Calling `p.process(context)` without awaiting. */
  function CallProcess<S>(p: AbstractProcessor<S>, s: S): Returned<S>
  {
    match p
    case Processor(_, f) => CallFunction(f, s)
    case ProcessorAsync(_, f) => CoroutineObject(f(s), s)
  }

  /** Awaiting a returned value when it is a coroutine object. */
  function Resolve<S>(r: Returned<S>): (bool, S)
  {
    match r
    case Value(b, t) => (b, t)
    case CoroutineObject(a, _) => Await(a)
  }

  /** `FunctionProcessor(func, name='')`: a `Processor` whose `process`
      returns exactly what `func(context)` returns. */
  function FunctionProcessor<S(!new)>(func: Callable<S>, name: Name := Some("")): (p: AbstractProcessor<S>)
    ensures p.Processor? && p.name == name
    ensures forall s :: CallProcess(p, s) == CallFunction(func, s)
  {
    Processor(name, func)
  }

  /** `FunctionProcessorAsync(func, name='')`: a `ProcessorAsync` whose
      `process` hands back a coroutine that resolves to the awaited `func(context)`. */
  function FunctionProcessorAsync<S(!new)>(func: S -> Awaitable<S>, name: Name := Some("")): (p: AbstractProcessor<S>)
    ensures p.ProcessorAsync? && p.name == name
    ensures forall s :: CallProcess(p, s).CoroutineObject? && Resolve(CallProcess(p, s)) == Await(func(s))
  {
    ProcessorAsync(name, func)
  }
}
