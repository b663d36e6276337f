/** The flow engine of the earlier tree (src/flow.py).

    Differences from the current package: the constructor stores whatever it
    is given without checking it; `add_processor` accepts only instances of
    `Processor`, so async processors are refused; the decorator always wraps
    the function in the plain `FunctionProcessor`; and `execute` is
    `any(self._set_current_processor(p.name) or p.process(context) for p in ...)`,
    which never awaits anything. Because a coroutine object is truthy, reaching
    an async processor (or a decorated coroutine function) stops the run
    without its body ever executing; reaching a stored value that lacks a
    `name` or a `process` attribute raises AttributeError, while one that has
    both runs like a processor. */
module SrcFlow {
  import opened Values
  import opened SrcProcessor

  /** A stored or offered value: a processor of either kind, or some other
      value, described by the two attributes `execute` looks up on it: its
      `name` (absent when `None`) and its `process` (absent when `None`). */
  datatype Candidate<!S> =
    | Proc(processor: AbstractProcessor<S>)
    | Foreign(nameAttr: Option<Name>, processAttr: Option<Callable<S>>)

  /** `isinstance(c, Processor)`: plain processors only. */
  predicate IsProcessor<S>(c: Candidate<S>)
  {
    c.Proc? && c.processor.Processor?
  }

  /** Reading `c.name` succeeds. */
  predicate HasName<S>(c: Candidate<S>)
  {
    c.Proc? || c.nameAttr.Some?
  }

  /** Reading `c.process` succeeds. */
  predicate HasProcess<S>(c: Candidate<S>)
  {
    c.Proc? || c.processAttr.Some?
  }

  /** The name the marker is set to when the engine reaches `c` (a value
      without a `name` never sets it; None stands in for it there). */
  function NameOf<S>(c: Candidate<S>): Name
  {
    match c
    case Proc(p) => p.name
    case Foreign(n, _) => if n.Some? then n.value else None
  }

  /** Calling `c.process(context)` without awaiting. */
  function Call<S>(c: Candidate<S>, s: S): Returned<S>
    requires HasProcess(c)
  {
    match c
    case Proc(p) => CallProcess(p, s)
    case Foreign(_, f) => CallFunction(f.value, s)
  }

  // ---------------------------------------------------------------------
  // Specification of one run of the engine
  // ---------------------------------------------------------------------

  /** The context state element `k` is reached with when no earlier element
      ended the run. */
  function StateBefore<S>(cs: seq<Candidate<S>>, s: S, k: nat): S
    requires k <= |cs|
  {
    if k == 0 then s
    else
      var prev := StateBefore(cs, s, k - 1);
      if HasName(cs[k - 1]) && HasProcess(cs[k - 1]) then Call(cs[k - 1], prev).state
      else prev
  }

  /** Element `k`, once reached, ends the run: reading its `name` or its
      `process` raises, or its call hands back something truthy. */
  predicate Halts<S>(cs: seq<Candidate<S>>, s: S, k: nat)
    requires k < |cs|
  {
    !HasName(cs[k]) || !HasProcess(cs[k]) || Truthy(Call(cs[k], StateBefore(cs, s, k)))
  }

  function FirstHaltFrom<S>(cs: seq<Candidate<S>>, s: S, i: nat): (k: Option<nat>)
    requires i <= |cs|
    ensures k.Some? ==> i <= k.value < |cs| && Halts(cs, s, k.value)
    ensures k.Some? ==> forall j :: i <= j < k.value ==> !Halts(cs, s, j)
    ensures k.None? ==> forall j :: i <= j < |cs| ==> !Halts(cs, s, j)
    decreases |cs| - i
  {
    if i == |cs| then None
    else if Halts(cs, s, i) then Some(i)
    else FirstHaltFrom(cs, s, i + 1)
  }

  /** The index of the element that ends the run, if any. */
  function FirstHalt<S>(cs: seq<Candidate<S>>, s: S): (k: Option<nat>)
    ensures k.Some? ==> k.value < |cs| && Halts(cs, s, k.value)
    ensures k.Some? ==> forall j :: 0 <= j < k.value ==> !Halts(cs, s, j)
    ensures k.None? ==> forall j :: 0 <= j < |cs| ==> !Halts(cs, s, j)
  {
    FirstHaltFrom(cs, s, 0)
  }

  /** How many elements had the marker set to their name. */
  function Started<S>(cs: seq<Candidate<S>>, s: S): nat
  {
    match FirstHalt(cs, s)
    case Some(k) => if HasName(cs[k]) then k + 1 else k
    case None => |cs|
  }

  /** How many elements had their `process` called. */
  function Called<S>(cs: seq<Candidate<S>>, s: S): nat
  {
    match FirstHalt(cs, s)
    case Some(k) => if HasName(cs[k]) && HasProcess(cs[k]) then k + 1 else k
    case None => |cs|
  }

  /** The exception the run ends with, if any. */
  function Raised<S>(cs: seq<Candidate<S>>, s: S): Option<Error>
  {
    match FirstHalt(cs, s)
    case Some(k) => if HasName(cs[k]) && HasProcess(cs[k]) then None else Some(AttributeError)
    case None => None
  }

  function FinalState<S>(cs: seq<Candidate<S>>, s: S): S
  {
    StateBefore(cs, s, Called(cs, s))
  }

  function MarkerAfter<S>(cs: seq<Candidate<S>>, s: S, prior: Name): Name
  {
    var n := Started(cs, s);
    if n == 0 then prior else NameOf(cs[n - 1])
  }

  // ---------------------------------------------------------------------
  // Properties of a run
  // ---------------------------------------------------------------------

  /** The run stops at the first element whose call is truthy: exactly
      elements 0 .. k are started and called, nothing is raised, the context
      is left as element `k`'s call left it, and the marker ends on its name. */
  lemma {:induction false} StopsAtFirstTruthy<S>(cs: seq<Candidate<S>>, s: S, k: nat, prior: Name)
    requires k < |cs| && HasName(cs[k]) && HasProcess(cs[k]) && Halts(cs, s, k)
    requires forall j :: 0 <= j < k ==> !Halts(cs, s, j)
    ensures FirstHalt(cs, s) == Some(k)
    ensures Started(cs, s) == k + 1 && Called(cs, s) == k + 1 && Raised(cs, s) == None
    ensures FinalState(cs, s) == Call(cs[k], StateBefore(cs, s, k)).state
    ensures MarkerAfter(cs, s, prior) == NameOf(cs[k])
  {
  }

  /** Reaching a stored value that lacks `name` or `process` raises
      AttributeError. Every element before it had both and continued; its own
      `process` is never called. Without a `name` the marker stays where
      element k-1 (or `prior`) left it; with a `name` but no `process` the
      marker is set to that name just before the lookup of `process` fails. */
  lemma {:induction false} MissingAttributeRaises<S>(cs: seq<Candidate<S>>, s: S, k: nat, prior: Name)
    requires k < |cs| && !(HasName(cs[k]) && HasProcess(cs[k]))
    requires forall j :: 0 <= j < k ==> !Halts(cs, s, j)
    ensures FirstHalt(cs, s) == Some(k)
    ensures Raised(cs, s) == Some(AttributeError) && Called(cs, s) == k
    ensures Started(cs, s) == if HasName(cs[k]) then k + 1 else k
    ensures FinalState(cs, s) == StateBefore(cs, s, k)
    ensures forall j :: 0 <= j < k ==> HasName(cs[j]) && HasProcess(cs[j])
    ensures MarkerAfter(cs, s, prior) ==
      if HasName(cs[k]) then NameOf(cs[k]) else if k == 0 then prior else NameOf(cs[k - 1])
  {
    assert Halts(cs, s, k);
    assert FirstHalt(cs, s) == Some(k);
    forall j | 0 <= j < k
      ensures HasName(cs[j]) && HasProcess(cs[j])
    {
      assert !Halts(cs, s, j);
    }
  }

  /** When every element has a `name` and a `process` whose call is falsy,
      all of them run, nothing is raised, and the marker ends on the last
      one's name (or stays `prior`). */
  lemma {:induction false} AllFalseRunsAll<S>(cs: seq<Candidate<S>>, s: S, prior: Name)
    requires forall j :: 0 <= j < |cs| ==> !Halts(cs, s, j)
    ensures FirstHalt(cs, s) == None
    ensures Started(cs, s) == |cs| && Called(cs, s) == |cs| && Raised(cs, s) == None
    ensures FinalState(cs, s) == StateBefore(cs, s, |cs|)
    ensures forall j :: 0 <= j < |cs| ==> HasName(cs[j]) && HasProcess(cs[j])
    ensures |cs| > 0 ==> MarkerAfter(cs, s, prior) == NameOf(cs[|cs| - 1])
    ensures |cs| == 0 ==> MarkerAfter(cs, s, prior) == prior
  {
    forall j | 0 <= j < |cs|
      ensures HasName(cs[j]) && HasProcess(cs[j])
    {
      assert !Halts(cs, s, j);
    }
  }

  /** An empty flow is a no-op: nothing runs, the state and the marker are kept. */
  lemma EmptyIsNoOp<S>(s: S, prior: Name)
    ensures Started([], s) == 0 && Called([], s) == 0 && Raised([], s) == None
    ensures FinalState([], s) == s
    ensures MarkerAfter([], s, prior) == prior
  {
  }

  /** Reaching an async processor, or a plain processor wrapping a coroutine
      function, stops the run with the marker on its name, but its body never
      executes: the context is left as it was before that element. */
  lemma UnawaitedCoroutineStops<S>(cs: seq<Candidate<S>>, s: S, k: nat, prior: Name)
    requires k < |cs| && cs[k].Proc?
    requires cs[k].processor.ProcessorAsync? || cs[k].processor.func.Coroutine?
    requires forall j :: 0 <= j < k ==> !Halts(cs, s, j)
    ensures FirstHalt(cs, s) == Some(k) && Raised(cs, s) == None
    ensures FinalState(cs, s) == StateBefore(cs, s, k)
    ensures MarkerAfter(cs, s, prior) == cs[k].processor.name
  {
    assert Halts(cs, s, k);
    StopsAtFirstTruthy(cs, s, k, prior);
  }

  /** `ProcessorAsync` derives from `AbstractProcessorBase`, not from
      `Processor`: an async adapter fails the `add_processor` check. */
  lemma AsyncAdapterIsNotProcessor<S(!new)>(func: S -> Awaitable<S>, name: Name)
    ensures !IsProcessor(Proc(FunctionProcessorAsync(func, name)))
    ensures IsProcessor(Proc(FunctionProcessor(Plain((s: S) => Value(func(s).result, func(s).state)), name)))
  {
  }

  // ---------------------------------------------------------------------
  // The engine
  // ---------------------------------------------------------------------

  class Flow<S(!new)> {
    /** The name of the element started last; `''` before any has run. */
    var currentProcessor: Name
    /** Stored elements, in order; the constructor stores them unchecked. */
    var processors: seq<Candidate<S>>

    /** `Flow(name, processors=None)`: stores every given element, in order,
        without checking any of them. */
    constructor (processors: seq<Candidate<S>> := [])
      ensures this.processors == processors
      ensures currentProcessor == Some("")
    {
      currentProcessor := Some("");
      this.processors := [] + processors;
    }

    /** `add_processor(p)`: appends an instance of `Processor` at the end; any
        other value, an async processor included, raises TypeError and
        leaves the sequence as it was. */
    method AddProcessor(c: Candidate<S>) returns (r: Outcome)
      modifies this`processors
      ensures IsProcessor(c) ==> r == Pass && processors == old(processors) + [c]
      ensures !IsProcessor(c) ==> r == Fail(TypeError) && processors == old(processors)
    {
      if !IsProcessor(c) {
        return Fail(TypeError);
      }
      processors := processors + [c];
      return Pass;
    }

    /** `@flow.processor(name)` applied to `func`: always appends one plain
        `FunctionProcessor` named `name` whose call returns what `func` returns
        (for a coroutine function, an unstarted coroutine). */
    method Decorate(name: string, func: Callable<S>)
      modifies this`processors
      ensures |processors| == |old(processors)| + 1
      ensures processors[..|old(processors)|] == old(processors)
      ensures IsProcessor(processors[|old(processors)|])
      ensures NameOf(processors[|old(processors)|]) == Some(name)
      ensures forall s :: Call(processors[|old(processors)|], s) == CallFunction(func, s)
      ensures processors == old(processors) + [Proc(FunctionProcessor(func, Some(name)))]
    {
      var added := AddProcessor(Proc(FunctionProcessor(func, Some(name))));
    }

    /** `_set_current_processor(name)`: sets the marker and returns False, so
        that the `or` in `execute` goes on to call `process`. */
    method SetCurrentProcessor(n: Name) returns (r: bool)
      modifies this`currentProcessor
      ensures currentProcessor == n && !r
    {
      currentProcessor := n;
      return false;
    }

    /** `execute(context)`: walks the stored elements in order, setting the
        marker and calling `process`, until an element halts the run. Returns
        the state the context is left in and the exception raised, if any;
        `calls` lists every `process` call with the marker it saw. */
    method Execute(s: S) returns (s': S, raised: Option<Error>, ghost calls: seq<Invocation>)
      modifies this`currentProcessor
      ensures s' == FinalState(processors, s)
      ensures raised == Raised(processors, s)
      ensures currentProcessor == MarkerAfter(processors, s, old(currentProcessor))
      ensures |calls| == Called(processors, s)
      ensures forall j :: 0 <= j < |calls| ==> calls[j] == Invocation(j, NameOf(processors[j]))
    {
      var ps := processors;
      var i := 0;
      s', raised, calls := s, None, [];
      while i < |ps|
        invariant ps == processors
        invariant 0 <= i <= |ps|
        invariant s' == StateBefore(ps, s, i)
        invariant forall j :: 0 <= j < i ==> !Halts(ps, s, j)
        invariant currentProcessor == if i == 0 then old(currentProcessor) else NameOf(ps[i - 1])
        invariant |calls| == i
        invariant forall j :: 0 <= j < i ==> calls[j] == Invocation(j, NameOf(ps[j]))
      {
        var c := ps[i];
        if !HasName(c) {
          MissingAttributeRaises(ps, s, i, old(currentProcessor));
          raised := Some(AttributeError);
          return;
        }
        // `_set_current_processor` returns False, so the `or` always goes
        // on to look up and call `process`.
        var marked := SetCurrentProcessor(NameOf(c));
        if !HasProcess(c) {
          MissingAttributeRaises(ps, s, i, old(currentProcessor));
          raised := Some(AttributeError);
          return;
        }
        calls := calls + [Invocation(i, currentProcessor)];
        var r := Call(c, s');
        s' := r.state;
        if Truthy(r) {
          StopsAtFirstTruthy(ps, s, i, old(currentProcessor));
          return;
        }
        i := i + 1;
      }
      AllFalseRunsAll(ps, s, old(currentProcessor));
    }

    /** `get_current_processor()`: the marker, with an absent name read as `''`. */
    function GetCurrentProcessor(): (r: string)
      reads this
      ensures currentProcessor.Some? ==> r == currentProcessor.value
      ensures currentProcessor.None? ==> r == ""
    {
      OrEmpty(currentProcessor)
    }
  }
}
