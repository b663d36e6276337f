# crinkle flow engine, modelled in Dafny

crinkle runs a *flow*: an ordered sequence of *processors* that all work on
one shared context. Each processor returns a boolean. `execute` runs the
processors in registration order and stops at the first one that returns
true. Before it calls a processor, the flow records that processor's name as
its *current processor*; `get_current_processor()` reads that marker back.
Processors are registered in three ways:

- through the constructor's list;
- through `add_processor`;
- through the `@flow.processor(name)` decorator, which wraps a bare function in
  an adapter (`FunctionProcessor`, or `FunctionProcessorAsync` for a coroutine
  function).

The repository holds two versions of this engine. The model keeps them apart:

- **crinkle/** is the current package:
  - the modules `CrinkleProcessor` and `CrinkleFlow`;
  - the constructor rejects any non-processor with ValueError;
  - an async processor is a kind of `ProcessorBase`;
  - `_run_processor` drives a `process` that is a coroutine function to
    completion, so its awaited boolean decides the run just like a plain
    result;
  - any other `process` is not awaited. An ordinary function that hands back
    an awaitable (a lambda around an `async def`, say) is wrapped by the
    decorator in the plain adapter. Its coroutine object is truthy, so the
    run stops there and the coroutine's body never runs, though whatever
    the function did to the context before handing it back stays.
- **src/** is the earlier version:
  - the modules `SrcProcessor` and `SrcFlow`;
  - the constructor stores its list without checking it;
  - `add_processor` accepts only `Processor`, which is not a supertype
    of `ProcessorAsync`;
  - the decorator always builds the plain `FunctionProcessor`;
  - `execute` is `any(self._set_current_processor(p.name) or p.process(context) ...)`,
    which awaits nothing.

  Modelled as written, this means:
  - a coroutine returned by `process` is truthy, so it stops the run without its
    body ever executing;
  - a stored value that is not a processor is described by the two
    attributes `execute` looks up on it. Without `name` it raises
    AttributeError before the marker is set. With `name` but no `process`,
    the marker is set to that name and then AttributeError is raised. With
    both, it runs like a processor.

`Values` holds what the two trees share:

- a name is an optional string (`Optional[str]`);
- the exceptions raised;
- what awaiting a coroutine yields;
- what a call hands back before anything awaits it (a boolean or a coroutine
  object), and Python's truthiness of it;
- the bare functions a decorator wraps.

The context is an opaque state `S`. A processor's call is a function from a
state to its verdict and the state it leaves behind. A run is specified by
pure functions of the processor sequence and the initial state (`StateBefore`,
`Stops`/`Halts`, `FirstStop`/`FirstHalt`, `Ran`/`Started` and `Called`, `FinalState`,
`MarkerAfter`). Each `Flow` class is proved against these functions, and the
properties of a run are lemmas about them. `FlowScenarios` repeats the
scenarios of tests/test_flow.py as client code, and what they check follows
from the contracts alone.

## Model

| member | source | states |
|---|---|---|
| Values.OrEmpty | crinkle/flow.py:89-90 | `name or ''`: the result is empty exactly when the name is absent or empty; otherwise it is the name itself |
| CrinkleProcessor.FunctionProcessor | crinkle/processor.py:31-40 | the adapter is a plain processor that keeps the given name (default `''`); on every context the engine gets `func`'s boolean and state when `func` returns a boolean, and a truthy result with the state `func` left when it hands back an awaitable |
| CrinkleProcessor.FunctionProcessorAsync | crinkle/processor.py:43-49 | the adapter is a suspending processor that keeps the given name (default `''`), and its `process` resolves on every context to the awaited result of `func(context)` |
| CrinkleFlow.FirstStopFrom | crinkle/flow.py:66-69 | the short-circuit search of `any` from position `i`: if it finds k, processor k stops and none between `i` and k does; if it finds nothing, none from `i` on stops |
| CrinkleFlow.FirstStop | crinkle/flow.py:66-69 | the processor a run stops at is the first whose call returns true, given the state its predecessors left; if there is none, no processor returns true |
| CrinkleFlow.StopsAtFirstTrue | crinkle/flow.py:65-70 | if processor k is the first to return true, the run calls exactly processors 0..k, leaves the state processor k produced, and leaves the marker on processor k's name |
| CrinkleFlow.AllFalseRunsAll | crinkle/flow.py:65-70 | if every processor returns false, all of them run in order, and the marker ends on the last one's name (or keeps its prior value when there are none) |
| CrinkleFlow.EmptyIsNoOp | crinkle/flow.py:65-70 | an empty flow calls nothing and keeps both the state and the marker |
| CrinkleFlow.UnawaitedCoroutineStops | crinkle/flow.py:72-79 | a plain processor whose `process` hands back an awaitable stops the run there, unawaited: the marker is on its name and the context keeps the state the call left when it handed the awaitable back |
| CrinkleFlow.EquivalentRunsAlike | crinkle/flow.py:65-70 | two flows whose processors agree one by one on the name and on the completed verdict and state stop at the same processor, invoke as many, and leave the same state and marker |
| CrinkleFlow.LaterProcessorsNeverRun | crinkle/flow.py:66-69 | once a run stops, appending any processors after it changes nothing about the run: where it stops, how many run, the final state and the marker |
| CrinkleFlow.Blocking | crinkle/flow.py:78-87 | the blocking equivalent of a processor is plain, has the same name and, on every context, gives the same verdict and state as driving the original to completion |
| CrinkleFlow.MixedRunsAsBlocking | crinkle/flow.py:78-87 | a flow that mixes plain and async processors stops at the same processor as its all-blocking equivalent, runs as many processors, and leaves the same state and marker |
| CrinkleFlow.Adapter | crinkle/flow.py:53-61 | the adapter the decorator picks carries the given name, is async exactly when the function is a coroutine function, and on every context gives what the engine obtains from that function |
| CrinkleFlow.AnyNonProcessor | crinkle/flow.py:31 | true exactly when some candidate in the list is not a processor |
| CrinkleFlow.Flow.constructor | crinkle/flow.py:21-27 | a new flow keeps its name, holds no processors, and its marker is `''` |
| CrinkleFlow.Flow.Create | crinkle/flow.py:26-35 | fails with ValueError, creating no flow, exactly when some candidate is not a processor; otherwise the fresh flow holds exactly the given processors in the given order, with marker `''` |
| CrinkleFlow.Flow.AddProcessor | crinkle/flow.py:38-43 | a processor of either kind is appended at the end and the earlier entries are kept; any other value fails with TypeError and the sequence is unchanged |
| CrinkleFlow.Flow.Decorate | crinkle/flow.py:45-63 | appends exactly the adapter `Adapter` picks and keeps the earlier processors; it is named `name` and is async iff the function is a coroutine function; a coroutine function's result is awaited, an ordinary function's boolean is used as is, and an awaitable handed back by an ordinary function gives a truthy result with the state the function left |
| CrinkleFlow.Flow.RunProcessor | crinkle/flow.py:72-87 | sets the marker to the processor's name before the call, and returns the verdict and state the engine obtains: an async `process` is awaited, any other is taken as it is, by truthiness |
| CrinkleFlow.Flow.Execute | crinkle/flow.py:65-70 | returns the specified final state, leaves the marker as `MarkerAfter` says, and calls exactly the first `Ran` processors, in order, each one after the marker was set to its name |
| CrinkleFlow.Flow.GetCurrentProcessor | crinkle/flow.py:89-90 | the marker's name, or `''` when the marker is None |
| CrinkleFlow.Flow.GetProcessors | crinkle/flow.py:92-93 | the registered processors, element by element in registration order |
| SrcProcessor.FunctionProcessor | src/processor.py:35-44 | the adapter is a `Processor` that keeps the given name (default `''`), and its `process` returns, on every context, what calling `func` returns; for a coroutine function that is an unstarted coroutine |
| SrcProcessor.FunctionProcessorAsync | src/processor.py:47-53 | the adapter is a `ProcessorAsync` that keeps the given name (default `''`); calling `process` hands back a coroutine, which resolves to the awaited result of `func(context)` |
| SrcFlow.AsyncAdapterIsNotProcessor | src/processor.py:25-32 | an async adapter is not an instance of `Processor`, while a plain adapter is |
| SrcFlow.FirstHaltFrom | src/flow.py:41-45 | the short-circuit search of `any` from position `i`: the element found halts the run and none before it from `i` on does; having found none, no element from `i` on halts |
| SrcFlow.FirstHalt | src/flow.py:41-45 | the element a run ends at is the first that lacks `name` or `process` or whose call hands back something truthy; if there is none, no element halts |
| SrcFlow.StopsAtFirstTruthy | src/flow.py:40-46 | if element k is the first whose call is truthy, elements 0..k are started and called, nothing is raised, the state is what k's call left, and the marker ends on k's name |
| SrcFlow.MissingAttributeRaises | src/flow.py:41-44 | when the run reaches, at k, a stored value that lacks `name` or `process`, it raises AttributeError; every earlier element had both, and `process` was called on elements 0..k-1 only; the state is what element k-1 left; the marker is k's name if it has one, otherwise it stays where element k-1 (or the prior value) left it |
| SrcFlow.AllFalseRunsAll | src/flow.py:40-46 | if no element halts, every element has `name` and `process`, all of them are called, nothing is raised, and the marker ends on the last name (or keeps its prior value) |
| SrcFlow.EmptyIsNoOp | src/flow.py:40-46 | an empty flow starts nothing, raises nothing, and keeps both the state and the marker |
| SrcFlow.UnawaitedCoroutineStops | src/flow.py:41-45 | reaching an async processor, or a plain one wrapping a coroutine function, stops the run with the marker on its name, but the context keeps the state it had before that element |
| SrcFlow.Flow.constructor | src/flow.py:16-23 | the new flow stores every given element, unchecked and in order, and its marker is `''` |
| SrcFlow.Flow.AddProcessor | src/flow.py:25-30 | only an instance of `Processor` is appended, at the end; any other value, an async processor included, fails with TypeError and the sequence is unchanged |
| SrcFlow.Flow.Decorate | src/flow.py:32-38 | always appends exactly one plain `FunctionProcessor` named `name` and keeps the earlier entries; its call returns what the function's call returns |
| SrcFlow.Flow.SetCurrentProcessor | src/flow.py:51-53 | sets the marker and returns false, so that `or` goes on to call `process` |
| SrcFlow.Flow.Execute | src/flow.py:40-46 | returns the specified final state and exception, leaves the marker as `MarkerAfter` says, and calls `process` on exactly the first `Called` elements, in order, each after the marker was set to its name |
| SrcFlow.Flow.GetCurrentProcessor | src/flow.py:48-49 | the marker's name, or `''` when the marker is None |
| FlowScenarios.RunThree | tests/test_flow.py:81-180 | three decorated functions are registered in call order under the given names, each as the adapter the decorator picks; after `execute`, the marker is the one the run specification gives |

## Left out

- asyncio mechanics (crinkle/flow.py:81-86). These are the event-loop lookup, `ensure_future` and `run_until_complete`. Driving a coroutine to completion is modelled as obtaining its boolean and the state it leaves.
- Runtime introspection (`isinstance`, `asyncio.iscoroutinefunction`) is replaced by tags fixed at registration:
  - the processor variants (`Sync`/`Async`, `Processor`/`ProcessorAsync`);
  - `Candidate` for values that may not be processors;
  - `Plain`/`Coroutine` for bare functions.
- pydantic `BaseModel` behaviour is a foreign library and is not modelled:
  - Field validation is left out.
  - pydantic gives each flow its own copy of the private `_processors` default. Each flow here likewise starts with its own empty sequence.
  - src/flow.py:19 does not pass `name` on to pydantic, so under pydantic that constructor would reject its call. `SrcFlow.Flow` has no name field.
- crinkle/context.py and src/context.py are not part of this model. The context is an opaque state `S`.
- The context is changed in place in the source. `Execute` instead returns the state the processors leave.
- Exceptions raised inside a processor's own logic propagate unchanged. They are not modelled.
- Coroutines that never complete are not modelled.
- The decorator returns None, and `self._name` is never read (crinkle/flow.py:36, 57, 63; src/flow.py:23). Neither is modelled.
- `get_processors()` hands out the flow's own deque, so a caller's mutation aliases the flow. `GetProcessors` returns the sequence as a value.
- Processors are immutable values. A user-defined subclass of `ProcessorBase` with its own fields is modelled by its name and the function its `process` computes.
- Values.Returned: what a plain `process` or bare function hands back is a boolean or an awaitable. Other values Python reads by truthiness (None, numbers, containers) are not modelled.
