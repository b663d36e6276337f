/** The flow engine of the current package (crinkle/flow.py): an ordered
    sequence of processors, a marker naming the processor that was started
    last, registration with eager validation, and `execute`, which runs the
    processors in order on one context until one of them returns true.

    The first half of the module specifies a run as pure functions of the
    processor sequence and the initial context state; the class `Flow` then
    implements the engine as the source does and is proved against them. */
module CrinkleFlow {
  import opened Values
  import opened CrinkleProcessor

  // ---------------------------------------------------------------------
  // Specification of one run of the engine
  // ---------------------------------------------------------------------

  /** The context state processor `k` is handed when every processor before it
      continued: the initial state threaded through processors 0 .. k-1. */
  function StateBefore<S>(ps: seq<Processor<S>>, s: S, k: nat): S
    requires k <= |ps|
  {
    if k == 0 then s else Process(ps[k - 1], StateBefore(ps, s, k - 1)).1
  }

  /** Processor `k`, once reached, returns true. */
  predicate Stops<S>(ps: seq<Processor<S>>, s: S, k: nat)
    requires k < |ps|
  {
    Process(ps[k], StateBefore(ps, s, k)).0
  }

  /** The first processor at or after `i` that returns true, if any. */
  function FirstStopFrom<S>(ps: seq<Processor<S>>, s: S, i: nat): (k: Option<nat>)
    requires i <= |ps|
    ensures k.Some? ==> i <= k.value < |ps| && Stops(ps, s, k.value)
    ensures k.Some? ==> forall j :: i <= j < k.value ==> !Stops(ps, s, j)
    ensures k.None? ==> forall j :: i <= j < |ps| ==> !Stops(ps, s, j)
    decreases |ps| - i
  {
    if i == |ps| then None
    else if Stops(ps, s, i) then Some(i)
    else FirstStopFrom(ps, s, i + 1)
  }

  /** The index of the first processor returning true: the one a run stops at. */
  function FirstStop<S>(ps: seq<Processor<S>>, s: S): (k: Option<nat>)
    ensures k.Some? ==> k.value < |ps| && Stops(ps, s, k.value)
    ensures k.Some? ==> forall j :: 0 <= j < k.value ==> !Stops(ps, s, j)
    ensures k.None? ==> forall j :: 0 <= j < |ps| ==> !Stops(ps, s, j)
  {
    FirstStopFrom(ps, s, 0)
  }

  /** How many processors a run invokes: up to and including the first that
      returns true, or all of them. */
  function Ran<S>(ps: seq<Processor<S>>, s: S): nat
  {
    match FirstStop(ps, s)
    case Some(k) => k + 1
    case None => |ps|
  }

  /** The context state a run leaves. */
  function FinalState<S>(ps: seq<Processor<S>>, s: S): S
  {
    StateBefore(ps, s, Ran(ps, s))
  }

  /** The marker after a run that began with marker `prior`: the name of the
      last processor invoked, or `prior` when none was. */
  function MarkerAfter<S>(ps: seq<Processor<S>>, s: S, prior: Name): Name
  {
    var n := Ran(ps, s);
    if n == 0 then prior else ps[n - 1].name
  }

  // ---------------------------------------------------------------------
  // Properties of a run
  // ---------------------------------------------------------------------

  /** When processor `k` is the first returning true, the run invokes exactly
      processors 0 .. k and leaves the marker on processor `k`'s name. */
  lemma {:induction false} StopsAtFirstTrue<S>(ps: seq<Processor<S>>, s: S, k: nat, prior: Name)
    requires k < |ps| && Stops(ps, s, k)
    requires forall j :: 0 <= j < k ==> !Stops(ps, s, j)
    ensures FirstStop(ps, s) == Some(k)
    ensures Ran(ps, s) == k + 1
    ensures FinalState(ps, s) == Process(ps[k], StateBefore(ps, s, k)).1
    ensures MarkerAfter(ps, s, prior) == ps[k].name
  {
  }

  /** A plain processor whose `process` hands back an awaitable (a decorated
      ordinary function that returns one, say) is never awaited: the
      coroutine object is truthy, so the run stops there with the marker on
      its name. The coroutine's body never runs: the context is left as the
      call left it when it handed the coroutine back. */
  lemma {:induction false} UnawaitedCoroutineStops<S>(ps: seq<Processor<S>>, s: S, k: nat, prior: Name)
    requires k < |ps| && ps[k].Sync? && ps[k].process(StateBefore(ps, s, k)).CoroutineObject?
    requires forall j :: 0 <= j < k ==> !Stops(ps, s, j)
    ensures FirstStop(ps, s) == Some(k) && Ran(ps, s) == k + 1
    ensures FinalState(ps, s) == ps[k].process(StateBefore(ps, s, k)).state
    ensures MarkerAfter(ps, s, prior) == ps[k].name
  {
    StopsAtFirstTrue(ps, s, k, prior);
  }

  /** When every processor returns false, the run invokes all of them, and
      the marker ends on the last one's name (or stays `prior` if there are none). */
  lemma {:induction false} AllFalseRunsAll<S>(ps: seq<Processor<S>>, s: S, prior: Name)
    requires forall j :: 0 <= j < |ps| ==> !Stops(ps, s, j)
    ensures FirstStop(ps, s) == None
    ensures Ran(ps, s) == |ps|
    ensures FinalState(ps, s) == StateBefore(ps, s, |ps|)
    ensures |ps| > 0 ==> MarkerAfter(ps, s, prior) == ps[|ps| - 1].name
    ensures |ps| == 0 ==> MarkerAfter(ps, s, prior) == prior
  {
  }

  /** An empty flow is a no-op: nothing runs, the state and the marker are kept. */
  lemma EmptyIsNoOp<S>(s: S, prior: Name)
    ensures Ran([], s) == 0
    ensures FinalState([], s) == s
    ensures MarkerAfter([], s, prior) == prior
  {
  }

  lemma {:induction false} StateBeforePrefix<S>(ps: seq<Processor<S>>, qs: seq<Processor<S>>, s: S, k: nat)
    requires k <= |ps|
    ensures StateBefore(ps + qs, s, k) == StateBefore(ps, s, k)
  {
    if k > 0 {
      StateBeforePrefix(ps, qs, s, k - 1);
      assert (ps + qs)[k - 1] == ps[k - 1];
    }
  }

  lemma StopsInPrefix<S>(ps: seq<Processor<S>>, qs: seq<Processor<S>>, s: S, j: nat)
    requires j < |ps|
    ensures Stops(ps + qs, s, j) == Stops(ps, s, j)
  {
    StateBeforePrefix(ps, qs, s, j);
    assert (ps + qs)[j] == ps[j];
  }

  /** Processors after the one that stops are never invoked: appending any
      processors to a flow whose run stops changes nothing about the run. */
  lemma LaterProcessorsNeverRun<S>(ps: seq<Processor<S>>, qs: seq<Processor<S>>, s: S, prior: Name)
    requires FirstStop(ps, s).Some?
    ensures FirstStop(ps + qs, s) == FirstStop(ps, s)
    ensures Ran(ps + qs, s) == Ran(ps, s)
    ensures FinalState(ps + qs, s) == FinalState(ps, s)
    ensures MarkerAfter(ps + qs, s, prior) == MarkerAfter(ps, s, prior)
  {
    var k := FirstStop(ps, s).value;
    forall j | 0 <= j <= k
      ensures Stops(ps + qs, s, j) == Stops(ps, s, j)
    {
      StopsInPrefix(ps, qs, s, j);
    }
    StopsAtFirstTrue(ps + qs, s, k, prior);
    StateBeforePrefix(ps, qs, s, k + 1);
  }

  // ---------------------------------------------------------------------
  // Suspending processors are driven to completion
  // ---------------------------------------------------------------------

  /** The blocking equivalent of a processor: a suspending processor becomes
      the plain processor that awaits it, with the same name. */
  function Blocking<S(!new)>(p: Processor<S>): (q: Processor<S>)
    ensures q.Sync? && q.name == p.name
    ensures forall s :: Process(q, s) == Process(p, s)
  {
    match p
    case Sync(_, _) => p
    case Async(n, f) => Sync(n, (s: S) => Value(f(s).result, f(s).state))
  }

  /** Every processor of a flow replaced by its blocking equivalent. */
  function AllBlocking<S(!new)>(ps: seq<Processor<S>>): seq<Processor<S>>
  {
    seq(|ps|, i requires 0 <= i < |ps| => Blocking(ps[i]))
  }

  /** Two flows that agree processor by processor on the name and on the
      completed verdict and state for every context. */
  ghost predicate Equivalent<S(!new)>(ps: seq<Processor<S>>, qs: seq<Processor<S>>)
  {
    |ps| == |qs| &&
    forall j :: 0 <= j < |ps| ==> ps[j].name == qs[j].name && forall t :: Process(qs[j], t) == Process(ps[j], t)
  }

  lemma {:induction false} EquivalentStateBefore<S(!new)>(ps: seq<Processor<S>>, qs: seq<Processor<S>>, s: S, k: nat)
    requires Equivalent(ps, qs) && k <= |ps|
    ensures StateBefore(qs, s, k) == StateBefore(ps, s, k)
  {
    if k > 0 {
      EquivalentStateBefore(ps, qs, s, k - 1);
      assert Process(qs[k - 1], StateBefore(ps, s, k - 1)) == Process(ps[k - 1], StateBefore(ps, s, k - 1));
    }
  }

  lemma {:induction false} EquivalentStops<S(!new)>(ps: seq<Processor<S>>, qs: seq<Processor<S>>, s: S)
    requires Equivalent(ps, qs)
    ensures forall j :: 0 <= j < |ps| ==> Stops(qs, s, j) == Stops(ps, s, j)
  {
    forall j | 0 <= j < |ps|
      ensures Stops(qs, s, j) == Stops(ps, s, j)
    {
      EquivalentStateBefore(ps, qs, s, j);
      assert Process(qs[j], StateBefore(ps, s, j)) == Process(ps[j], StateBefore(ps, s, j));
    }
  }

  /** Equivalent flows run alike: they stop at the same processor, invoke as
      many processors, and leave the same state and marker. */
  lemma {:induction false} EquivalentRunsAlike<S(!new)>(ps: seq<Processor<S>>, qs: seq<Processor<S>>, s: S, prior: Name)
    requires Equivalent(ps, qs)
    ensures FirstStop(qs, s) == FirstStop(ps, s)
    ensures Ran(qs, s) == Ran(ps, s)
    ensures FinalState(qs, s) == FinalState(ps, s)
    ensures MarkerAfter(qs, s, prior) == MarkerAfter(ps, s, prior)
  {
    assert FirstStop(qs, s) == FirstStop(ps, s) by {
      EquivalentStops(ps, qs, s);
      match FirstStop(ps, s)
      case Some(k) => StopsAtFirstTrue(qs, s, k, prior);
      case None => AllFalseRunsAll(qs, s, prior);
    }
    EquivalentStateBefore(ps, qs, s, Ran(ps, s));
  }

  /** A suspending processor's awaited boolean is used exactly like a plain
      processor's result: a flow mixing both kinds runs as the flow in which
      every suspending processor is replaced by its blocking equivalent. */
  lemma {:induction false} MixedRunsAsBlocking<S(!new)>(ps: seq<Processor<S>>, s: S, prior: Name)
    ensures FirstStop(AllBlocking(ps), s) == FirstStop(ps, s)
    ensures Ran(AllBlocking(ps), s) == Ran(ps, s)
    ensures FinalState(AllBlocking(ps), s) == FinalState(ps, s)
    ensures MarkerAfter(AllBlocking(ps), s, prior) == MarkerAfter(ps, s, prior)
  {
    var bs := AllBlocking(ps);
    forall j | 0 <= j < |ps|
      ensures ps[j].name == bs[j].name && forall t :: Process(bs[j], t) == Process(ps[j], t)
    {
      assert bs[j] == Blocking(ps[j]);
    }
    EquivalentRunsAlike(ps, bs, s, prior);
  }

  // ---------------------------------------------------------------------
  // Registration inputs
  // ---------------------------------------------------------------------

  /** A value offered for registration: a processor, or some other value. */
  datatype Candidate<!S> = Proc(processor: Processor<S>) | NonProcessor

  /** `isinstance(c, ProcessorBase)`: holds for both kinds of processor. */
  predicate IsProcessorBase<S>(c: Candidate<S>)
  {
    c.Proc?
  }

  /** The constructor's check `any(not isinstance(p, ProcessorBase) for p in processors)`:
      true exactly when some candidate is not a processor. */
  method AnyNonProcessor<S>(candidates: seq<Candidate<S>>) returns (found: bool)
    ensures found <==> exists i :: 0 <= i < |candidates| && !IsProcessorBase(candidates[i])
  {
    var i := 0;
    while i < |candidates|
      invariant 0 <= i <= |candidates|
      invariant forall j :: 0 <= j < i ==> IsProcessorBase(candidates[j])
    {
      if !IsProcessorBase(candidates[i]) {
        return true;
      }
      i := i + 1;
    }
    return false;
  }

  /** The adapter the decorator picks for `func`: `FunctionProcessorAsync`
      when `func` is a coroutine function, `FunctionProcessor` otherwise. */
  function Adapter<S(!new)>(name: string, func: Callable<S>): (p: Processor<S>)
    ensures p.name == Some(name)
    ensures p.Async? <==> func.Coroutine?
    ensures forall s :: Process(p, s) == Completed(func, s)
  {
    match func
    case Coroutine(g) => FunctionProcessorAsync(g, Some(name))
    case Plain(g) => FunctionProcessor(g, Some(name))
  }

  // ---------------------------------------------------------------------
  // The engine
  // ---------------------------------------------------------------------

  class Flow<S(!new)> {
    const name: string
    /** The name of the processor started last; `''` before any has run. */
    var currentProcessor: Name
    /** Registered processors; registration order is execution order. */
    var processors: seq<Processor<S>>

    /** The pydantic part of `__init__`: a fresh flow with no processors. */
    constructor (name: string)
      ensures this.name == name
      ensures processors == [] && currentProcessor == Some("")
    {
      this.name := name;
      currentProcessor := Some("");
      processors := [];
    }

    /** `Flow(name, processors=None)`: fails with ValueError, creating no
        flow, if any candidate is not a processor; otherwise the new flow
        holds exactly the given processors, in the given order. */
    static method Create(name: string, candidates: seq<Candidate<S>> := []) returns (r: Result<Flow<S>>)
      ensures r.Failure? <==> exists i :: 0 <= i < |candidates| && !IsProcessorBase(candidates[i])
      ensures r.Failure? ==> r.error == ValueError
      ensures r.Success? ==> fresh(r.value) && r.value.name == name && r.value.currentProcessor == Some("")
      ensures r.Success? ==> |r.value.processors| == |candidates|
      ensures r.Success? ==> forall i :: 0 <= i < |candidates| ==> candidates[i] == Proc(r.value.processors[i])
    {
      var flow := new Flow(name);
      var invalid := AnyNonProcessor(candidates);
      if invalid {
        return Failure(ValueError);
      }
      flow.processors := flow.processors + seq(|candidates|, i requires 0 <= i < |candidates| => candidates[i].processor);
      return Success(flow);
    }

    /** `add_processor(p)`: appends a processor at the end; any other value
        raises TypeError and leaves the sequence as it was. */
    method AddProcessor(c: Candidate<S>) returns (r: Outcome)
      modifies this`processors
      ensures IsProcessorBase(c) ==> r == Pass && processors == old(processors) + [c.processor]
      ensures !IsProcessorBase(c) ==> r == Fail(TypeError) && processors == old(processors)
    {
      if !IsProcessorBase(c) {
        return Fail(TypeError);
      }
      processors := processors + [c.processor];
      return Pass;
    }

    /** `@flow.processor(name)` applied to `func`: appends one processor named
        `name`, the suspending kind exactly when `func` is a coroutine
        function. The engine then awaits a coroutine function's result, and
        takes any other function's result by truthiness, so an ordinary
        function that hands back an awaitable stops the run unawaited. */
    method Decorate(name: string, func: Callable<S>)
      modifies this`processors
      ensures |processors| == |old(processors)| + 1
      ensures processors[..|old(processors)|] == old(processors)
      ensures processors[|old(processors)|].name == Some(name)
      ensures processors[|old(processors)|].Async? <==> func.Coroutine?
      ensures func.Coroutine? ==> forall s :: Process(processors[|old(processors)|], s) == Await(func.start(s))
      ensures func.Plain? ==> forall s :: func.run(s).Value? ==>
        Process(processors[|old(processors)|], s) == (func.run(s).verdict, func.run(s).state)
      ensures func.Plain? ==> forall s :: func.run(s).CoroutineObject? ==>
        Process(processors[|old(processors)|], s) == (true, func.run(s).state)
      ensures processors == old(processors) + [Adapter(name, func)]
    {
      var added: Outcome;
      if func.Coroutine? {
        added := AddProcessor(Proc(FunctionProcessorAsync(func.start, Some(name))));
        return;
      }
      added := AddProcessor(Proc(FunctionProcessor(func.run, Some(name))));
    }

    /** `_run_processor`: sets the marker, then calls the processor, awaiting
        it when `process` is a coroutine function and otherwise using what it
        hands back as it is (the `any` in `execute` reads it by truthiness).
        `seen` is the marker's value at the moment of the call. */
    method RunProcessor(p: Processor<S>, s: S) returns (stop: bool, s': S, ghost seen: Name)
      modifies this`currentProcessor
      ensures currentProcessor == p.name && seen == p.name
      ensures (stop, s') == Process(p, s)
    {
      currentProcessor := p.name;
      seen := currentProcessor;
      match p
      case Sync(_, f) =>
        var r := f(s);
        stop, s' := Truthy(r), r.state;
      case Async(_, f) =>
        var a := f(s);
        stop, s' := a.result, a.state;
    }

    /** `execute(context)`: runs the processors in order on one context until
        one returns true. Returns the state the context is left in; `calls`
        lists every `process` call made, in order, with the marker it saw. */
    method Execute(s: S) returns (s': S, ghost calls: seq<Invocation>)
      modifies this`currentProcessor
      ensures s' == FinalState(processors, s)
      ensures currentProcessor == MarkerAfter(processors, s, old(currentProcessor))
      ensures |calls| == Ran(processors, s)
      ensures forall j :: 0 <= j < |calls| ==> calls[j] == Invocation(j, processors[j].name)
    {
      var ps := processors;
      var i := 0;
      s' := s;
      calls := [];
      while i < |ps|
        invariant ps == processors
        invariant 0 <= i <= |ps|
        invariant s' == StateBefore(ps, s, i)
        invariant forall j :: 0 <= j < i ==> !Stops(ps, s, j)
        invariant currentProcessor == if i == 0 then old(currentProcessor) else ps[i - 1].name
        invariant |calls| == i
        invariant forall j :: 0 <= j < i ==> calls[j] == Invocation(j, ps[j].name)
      {
        var stop: bool;
        ghost var seen: Name;
        stop, s', seen := RunProcessor(ps[i], s');
        calls := calls + [Invocation(i, seen)];
        if stop {
          StopsAtFirstTrue(ps, s, i, old(currentProcessor));
          return;
        }
        i := i + 1;
      }
      AllFalseRunsAll(ps, s, old(currentProcessor));
    }

    /** `get_current_processor()`: the marker, with an absent name read as `''`. */
    function GetCurrentProcessor(): (r: string)
      reads this
      ensures currentProcessor.Some? ==> r == currentProcessor.value
      ensures currentProcessor.None? ==> r == ""
    {
      OrEmpty(currentProcessor)
    }

    /** `get_processors()`: the registered processors in registration order. */
    function GetProcessors(): (r: seq<Processor<S>>)
      reads this
      ensures |r| == |processors| && forall i :: 0 <= i < |r| ==> r[i] == processors[i]
    {
      processors
    }
  }
}
