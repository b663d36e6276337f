/** Client code for both engines, following the scenarios of
    tests/test_flow.py: what a caller can conclude from the contracts alone. */
module FlowScenarios {
  import opened Values
  import CrinkleProcessor
  import CrinkleFlow
  import SrcProcessor
  import SrcFlow

  /** A processor subclass whose `process` always returns true. */
  function DummyProcessor(): CrinkleProcessor.Processor<string>
  {
    CrinkleProcessor.Sync(Some(""), (s: string) => Value(true, s))
  }

  function Constant(b: bool): Callable<string>
  {
    Plain((s: string) => Value(b, s))
  }

  function ConstantAsync(b: bool): Callable<string>
  {
    Coroutine((s: string) => Awaitable(b, s))
  }

  method ConstructorWithProcessors()
  {
    var d := DummyProcessor();
    var r := CrinkleFlow.Flow<string>.Create("Dummy", [CrinkleFlow.Proc(d), CrinkleFlow.Proc(d), CrinkleFlow.Proc(d)]);
    assert r.Success?;
    var flow := r.value;
    assert flow.name == "Dummy";
    assert flow.GetProcessors() == [d, d, d];
  }

  method ConstructorWithoutProcessors()
  {
    var r := CrinkleFlow.Flow<string>.Create("Dummy");
    assert r.Success?;
    var flow := r.value;
    assert flow.GetProcessors() == [];
    assert flow.GetCurrentProcessor() == "";
    var s', calls := flow.Execute("s");
    CrinkleFlow.EmptyIsNoOp("s", Some(""));
    assert flow.GetCurrentProcessor() == "" && s' == "s" && calls == [];
  }

  method ConstructorWithInvalidProcessors()
  {
    var invalid := [CrinkleFlow.NonProcessor, CrinkleFlow.NonProcessor, CrinkleFlow.NonProcessor];
    var r := CrinkleFlow.Flow<string>.Create("Invalid Processors Flow", invalid);
    assert !CrinkleFlow.IsProcessorBase(invalid[0]);
    assert r == Failure(ValueError);
  }

  method AddProcessorAppends()
  {
    var r := CrinkleFlow.Flow<string>.Create("Dummy");
    var flow := r.value;
    var added := flow.AddProcessor(CrinkleFlow.Proc(DummyProcessor()));
    assert added == Pass && flow.GetProcessors()[0] == DummyProcessor();
    added := flow.AddProcessor(CrinkleFlow.NonProcessor);
    assert added == Fail(TypeError) && |flow.GetProcessors()| == 1;
  }

  method DecoratorRegistersInOrder()
  {
    var r := CrinkleFlow.Flow<string>.Create("Dummy");
    var flow := r.value;
    flow.Decorate("Dummy Processor", Constant(true));
    flow.Decorate("Dummy Async Processor", ConstantAsync(true));
    assert flow.GetProcessors()[0].name == Some("Dummy Processor");
    assert flow.GetProcessors()[1].name == Some("Dummy Async Processor");
    assert flow.GetProcessors()[1].Async?;
  }

  /** Registers three decorated functions under the given names, in call
      order, and runs the flow on "dummy state". */
  method RunThree(n1: string, f1: Callable<string>, n2: string, f2: Callable<string>, n3: string, f3: Callable<string>)
    returns (flow: CrinkleFlow.Flow<string>, ps: seq<CrinkleProcessor.Processor<string>>)
    ensures fresh(flow) && ps == flow.processors && |ps| == 3
    ensures ps[0].name == Some(n1) && forall s :: CrinkleProcessor.Process(ps[0], s) == CrinkleProcessor.Completed(f1, s)
    ensures ps[1].name == Some(n2) && forall s :: CrinkleProcessor.Process(ps[1], s) == CrinkleProcessor.Completed(f2, s)
    ensures ps[2].name == Some(n3) && forall s :: CrinkleProcessor.Process(ps[2], s) == CrinkleProcessor.Completed(f3, s)
    ensures ps == [CrinkleFlow.Adapter(n1, f1), CrinkleFlow.Adapter(n2, f2), CrinkleFlow.Adapter(n3, f3)]
    ensures flow.currentProcessor == CrinkleFlow.MarkerAfter(ps, "dummy state", Some(""))
  {
    var r := CrinkleFlow.Flow<string>.Create("Dummy");
    flow := r.value;
    flow.Decorate(n1, f1);
    flow.Decorate(n2, f2);
    flow.Decorate(n3, f3);
    ps := flow.processors;
    var s', calls := flow.Execute("dummy state");
  }

  method ExecuteAllFalse()
  {
    var flow, ps := RunThree("Dummy Processor 1", Constant(false), "Dummy Processor 2", Constant(false),
                             "Dummy Processor 3", Constant(false));
    assert CrinkleFlow.StateBefore(ps, "dummy state", 1) == "dummy state";
    assert CrinkleFlow.StateBefore(ps, "dummy state", 2) == "dummy state";
    CrinkleFlow.AllFalseRunsAll(ps, "dummy state", Some(""));
    assert flow.GetCurrentProcessor() == "Dummy Processor 3";
  }

  method ExecuteStopsAtSecond()
  {
    var flow, ps := RunThree("Dummy Processor 1", Constant(false), "Dummy Processor 2", Constant(true),
                             "Dummy Processor 3", Constant(false));
    assert CrinkleFlow.StateBefore(ps, "dummy state", 1) == "dummy state";
    CrinkleFlow.StopsAtFirstTrue(ps, "dummy state", 1, Some(""));
    assert flow.GetCurrentProcessor() == "Dummy Processor 2";
  }

  method ExecuteStopsAtAsync()
  {
    var flow, ps := RunThree("Dummy Processor 1", Constant(false), "Dummy Async Processor 2", ConstantAsync(true),
                             "Dummy Processor 3", Constant(false));
    assert CrinkleFlow.StateBefore(ps, "dummy state", 1) == "dummy state";
    CrinkleFlow.StopsAtFirstTrue(ps, "dummy state", 1, Some(""));
    assert flow.GetCurrentProcessor() == "Dummy Async Processor 2";
  }

  method ExecuteStopsAtLastAsync()
  {
    var flow, ps := RunThree("Dummy Processor 1", Constant(false), "Dummy Async Processor 2", ConstantAsync(false),
                             "Dummy Async Processor 3", ConstantAsync(true));
    assert CrinkleFlow.StateBefore(ps, "dummy state", 1) == "dummy state";
    assert CrinkleFlow.StateBefore(ps, "dummy state", 2) == "dummy state";
    CrinkleFlow.StopsAtFirstTrue(ps, "dummy state", 2, Some(""));
    assert flow.GetCurrentProcessor() == "Dummy Async Processor 3";
  }

  /** An ordinary function that hands back an awaitable is wrapped in the
      plain adapter; the engine does not await what it returns, and the
      truthy coroutine object stops the run: what the function did before
      handing it back stays, and the coroutine's own body never runs. */
  method ExecuteStopsAtUnawaited()
  {
    var deferred := Plain((s: string) => CoroutineObject(Awaitable(false, s + "!"), s + "?"));
    var flow, ps := RunThree("Dummy Processor 1", Constant(false), "Dummy Deferred Processor 2", deferred,
                             "Dummy Processor 3", Constant(false));
    assert CrinkleFlow.StateBefore(ps, "dummy state", 1) == "dummy state";
    assert ps[1].Sync?;
    CrinkleFlow.UnawaitedCoroutineStops(ps, "dummy state", 1, Some(""));
    assert flow.GetCurrentProcessor() == "Dummy Deferred Processor 2";
    assert CrinkleFlow.FinalState(ps, "dummy state") == "dummy state?";
  }

  /** The earlier engine refuses async processors in `add_processor`, and a
      decorated coroutine function stops its run without executing. */
  method EarlyEngineAsync()
  {
    var flow := new SrcFlow.Flow<string>();
    var added := flow.AddProcessor(SrcFlow.Proc(SrcProcessor.FunctionProcessorAsync((s: string) => Awaitable(false, s + "!"))));
    assert added == Fail(TypeError) && flow.processors == [];
    flow.Decorate("Dummy Async Processor", Coroutine((s: string) => Awaitable(false, s + "!")));
    var ps := flow.processors;
    var s', raised, calls := flow.Execute("dummy state");
    SrcFlow.UnawaitedCoroutineStops(ps, "dummy state", 0, Some(""));
    assert s' == "dummy state" && raised == None;
    assert flow.GetCurrentProcessor() == "Dummy Async Processor";
  }

  /** The earlier constructor stores values that are not processors, and
      running reaches them: one without a `name` raises before the marker is
      set, one with a `name` but no `process` raises after it. */
  method EarlyEngineNonProcessor()
  {
    var flow := new SrcFlow.Flow<string>([SrcFlow.Foreign(None, None)]);
    var s', raised, calls := flow.Execute("dummy state");
    SrcFlow.MissingAttributeRaises(flow.processors, "dummy state", 0, Some(""));
    assert raised == Some(AttributeError) && flow.GetCurrentProcessor() == "" && calls == [];

    flow := new SrcFlow.Flow<string>([SrcFlow.Foreign(Some(Some("named")), None)]);
    s', raised, calls := flow.Execute("dummy state");
    SrcFlow.MissingAttributeRaises(flow.processors, "dummy state", 0, Some(""));
    assert raised == Some(AttributeError) && flow.GetCurrentProcessor() == "named" && calls == [];
  }
}
