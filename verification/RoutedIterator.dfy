/**
 `routedIterator` of provider-routing.js: an asynchronous iterator around an inner one. It resolves a route once, runs
 every inner operation under that route, and closes a dispatcher it owns when the stream ends.

 The state machine below takes one step for every piece of the source that runs without interruption: from a call to its
 first await, from one await to the next, and the settling of each awaited promise. Calls may overlap in any way; the
 only order assumed is that calls waiting for the same route resume in the order in which they were made.
 */
module RoutedIterator {
  import opened ProviderRouting
  import opened Wrappers

  /** The three methods of an AsyncIterator (section 27.1.1.4 of ECMA-262). */
  datatype Method = Next | Return | Throw

  datatype Reply = InnerResult(value: Value, done: bool) | InnerError(error: Value)

  /** Why a call ends: no route, no inner iterator, no such inner method, or the inner iterator's reply. */
  datatype Source = NoRoute(error: Value) | NoIterator(error: Value) | NoMethod | Replied(reply: Reply)

  /** What a caller sees. */
  datatype Completion = Returned(value: Value, done: bool) | Threw(error: Value)

  datatype Phase =
    | AwaitingRoute
    | AwaitingInner
    | Closing(source: Source, pending: Completion, disposing: bool)
    | Settled(source: Source, report: Completion, closeError: Option<Value>)

  datatype Call = Call(name: Method, argument: Value, phase: Phase)

  /** An operation on the inner iterator, with the route that was its AsyncLocalStorage context. */
  datatype Operation = Operation(call: nat, name: Method, argument: Value, route: Route)

  /** The cached promise of the route: the routing state it was asked under, and the handle once known. */
  datatype RouteSlot = NotAsked | Asked(policy: Option<RoutingState>, issued: Option<Result<string, Value>>)

  datatype State = State(
    provider: string,
    capability: Capability,
    policy: Option<RoutingState>,      // the routing state file, changed by others at any time
    slot: RouteSlot,                   // routePromise
    inner: Option<set<Method>>,     // iterator, as the set of methods it has
    closed: bool,
    calls: seq<Call>,
    resolutions: nat,                  // how often resolveRoute was called
    operations: seq<Operation>,        // what the inner iterator was asked
    closes: seq<Dispatcher>)           // on what dispatcher.close was called

  datatype Event =
    | Invoke(name: Method, argument: Value)
    | RouteSettled(issued: Result<string, Value>)
    | Resume(call: nat, creation: Result<set<Method>, Value>)
    | InnerSettled(call: nat, reply: Reply)
    | CloseSettled(call: nat, error: Option<Value>)
    | PolicyChanged(policy: Option<RoutingState>)

  function Initial(provider: string, capability: Capability, policy: Option<RoutingState>): State {
    State(provider, capability, policy, NotAsked, None, false, [], 0, [], [])
  }

  predicate RouteKnown(s: State) {
    s.slot.Asked? && s.slot.issued.Some?
  }

  function RouteOutcome(s: State): Result<Route, Value>
    requires RouteKnown(s)
  {
    ResolveRoute(s.slot.policy, s.provider, s.capability, s.slot.issued.value)
  }

  predicate HasRoute(s: State) {
    RouteKnown(s) && RouteOutcome(s).Ok?
  }

  function WithPhase(s: State, call: nat, phase: Phase): State
    requires call < |s.calls|
  {
    s.(calls := s.calls[call := s.calls[call].(phase := phase)])
  }

  /** close(context) up to its await. */
  function BeginClose(s: State, call: nat, source: Source, pending: Completion): State
    requires call < |s.calls| && HasRoute(s)
  {
    var route := RouteOutcome(s).value;
    if s.closed then WithPhase(s, call, Closing(source, pending, false))
    else
      WithPhase(s, call, Closing(source, pending, route.owned))
      .(closed := true, closes := s.closes + if route.owned then [route.dispatcher] else [])
  }

  /** invoke from the resolved route to its next await. */
  function Resumed(s: State, call: nat, creation: Result<set<Method>, Value>): State
    requires call < |s.calls| && RouteKnown(s)
  {
    match RouteOutcome(s)
    case Err(error) => WithPhase(s, call, Settled(NoRoute(error), Threw(error), None))
    case Ok(route) =>
      if s.inner.None? && creation.Err? then
        WithPhase(s, call, Settled(NoIterator(creation.error), Threw(creation.error), None))
      else
        var methods := if s.inner.Some? then s.inner.value else creation.value;
        var name, argument := s.calls[call].name, s.calls[call].argument;
        var t := s.(inner := Some(methods));
        if name !in methods then
          BeginClose(t, call, NoMethod, if name == Throw then Threw(argument) else Returned(argument, true))
        else
          WithPhase(t, call, AwaitingInner)
          .(operations := s.operations + [Operation(call, name, argument, route)])
  }

  predicate Enabled(s: State, event: Event) {
    match event
    case Invoke(_, _) => true
    case PolicyChanged(_) => true
    case RouteSettled(_) => s.slot.Asked? && s.slot.issued.None?
    case Resume(call, _) =>
      && call < |s.calls| && s.calls[call].phase.AwaitingRoute? && RouteKnown(s)
      && forall earlier :: 0 <= earlier < call ==> !s.calls[earlier].phase.AwaitingRoute?
    case InnerSettled(call, _) => call < |s.calls| && s.calls[call].phase.AwaitingInner? && HasRoute(s)
    case CloseSettled(call, error) =>
      call < |s.calls| && s.calls[call].phase.Closing? && (error.Some? ==> s.calls[call].phase.disposing)
  }

  function Step(s: State, event: Event): State
    requires Enabled(s, event)
  {
    match event
    case Invoke(name, argument) =>
      var t := if s.slot.NotAsked? then s.(slot := Asked(s.policy, None), resolutions := s.resolutions + 1) else s;
      t.(calls := s.calls + [Call(name, argument, AwaitingRoute)])
    case PolicyChanged(policy) => s.(policy := policy)
    case RouteSettled(issued) => s.(slot := s.slot.(issued := Some(issued)))
    case Resume(call, creation) => Resumed(s, call, creation)
    case InnerSettled(call, reply) =>
      var outcome := if reply.InnerResult? then Returned(reply.value, reply.done) else Threw(reply.error);
      if reply.InnerResult? && !reply.done then WithPhase(s, call, Settled(Replied(reply), outcome, None))
      else BeginClose(s, call, Replied(reply), outcome)
    case CloseSettled(call, error) =>
      var phase := s.calls[call].phase;
      WithPhase(s, call, Settled(phase.source, if error.Some? then Threw(error.value) else phase.pending, error))
  }

  /** The closure of routedIterator with its three variables; the remaining fields record what it did. */
  class RoutedStream {
    const provider: string
    const capability: Capability
    var policy: Option<RoutingState>
    var routePromise: RouteSlot
    var inner: Option<set<Method>>
    var closed: bool
    var calls: seq<Call>
    var resolutions: nat
    var operations: seq<Operation>
    var closes: seq<Dispatcher>

    ghost function Current(): State
      reads this
    {
      State(provider, capability, policy, routePromise, inner, closed, calls, resolutions, operations, closes)
    }

    constructor (provider: string, capability: Capability, policy: Option<RoutingState>)
      ensures Current() == Initial(provider, capability, policy)
    {
      this.provider, this.capability, this.policy := provider, capability, policy;
      routePromise, inner, closed, calls := NotAsked, None, false, [];
      resolutions, operations, closes := 0, [], [];
    }

    /** A call of next, return or throw, up to the first await. */
    method Begin(name: Method, argument: Value)
      modifies this
      ensures Current() == Step(old(Current()), Invoke(name, argument))
    {
      if routePromise == NotAsked {
        routePromise := Asked(policy, None);
        resolutions := resolutions + 1;
      }
      calls := calls + [Call(name, argument, AwaitingRoute)];
    }

    method SettleRoute(issued: Result<string, Value>)
      requires Enabled(Current(), RouteSettled(issued))
      modifies this
      ensures Current() == Step(old(Current()), RouteSettled(issued))
    {
      routePromise := routePromise.(issued := Some(issued));
    }

    method SetPhase(call: nat, phase: Phase)
      requires call < |calls|
      modifies this`calls
      ensures calls == old(calls)[call := old(calls)[call].(phase := phase)]
    {
      calls := calls[call := calls[call].(phase := phase)];
    }

    /** close(context). */
    method Close(call: nat, source: Source, pending: Completion)
      requires call < |calls| && HasRoute(Current())
      modifies this`calls, this`closed, this`closes
      ensures Current() == BeginClose(old(Current()), call, source, pending)
    {
      var context := ResolveRoute(routePromise.policy, provider, capability, routePromise.issued.value).value;
      if closed {
        SetPhase(call, Closing(source, pending, false));
        return;
      }
      closed := true;
      if context.owned { closes := closes + [context.dispatcher]; }
      SetPhase(call, Closing(source, pending, context.owned));
    }

    /** invoke after `await route()`. */
    method Continue(call: nat, creation: Result<set<Method>, Value>)
      requires Enabled(Current(), Resume(call, creation))
      modifies this
      ensures Current() == Step(old(Current()), Resume(call, creation))
    {
      var context := ResolveRoute(routePromise.policy, provider, capability, routePromise.issued.value);
      if context.Err? {
        SetPhase(call, Settled(NoRoute(context.error), Threw(context.error), None));
        return;
      }
      if inner.None? {
        if creation.Err? {
          SetPhase(call, Settled(NoIterator(creation.error), Threw(creation.error), None));
          return;
        }
        inner := Some(creation.value);
      }
      if calls[call].name !in inner.value {
        var argument := calls[call].argument;
        if calls[call].name == Throw {
          Close(call, NoMethod, Threw(argument));
        } else {
          Close(call, NoMethod, Returned(argument, true));
        }
        return;
      }
      operations := operations + [Operation(call, calls[call].name, calls[call].argument, context.value)];
      SetPhase(call, AwaitingInner);
    }

    /** invoke after the inner iterator has answered. */
    method SettleInner(call: nat, reply: Reply)
      requires Enabled(Current(), InnerSettled(call, reply))
      modifies this
      ensures Current() == Step(old(Current()), InnerSettled(call, reply))
    {
      if reply.InnerError? {
        Close(call, Replied(reply), Threw(reply.error));
      } else if reply.done {
        Close(call, Replied(reply), Returned(reply.value, true));
      } else {
        SetPhase(call, Settled(Replied(reply), Returned(reply.value, false), None));
      }
    }

    method SettleClose(call: nat, error: Option<Value>)
      requires Enabled(Current(), CloseSettled(call, error))
      modifies this
      ensures Current() == Step(old(Current()), CloseSettled(call, error))
    {
      var phase := calls[call].phase;
      if error.Some? {
        SetPhase(call, Settled(phase.source, Threw(error.value), error));
      } else {
        SetPhase(call, Settled(phase.source, phase.pending, None));
      }
    }
  }

  /** A source that must have closed the stream. */
  predicate Ends(source: Source) {
    source.NoMethod? || (source.Replied? && (source.reply.InnerError? || source.reply.done))
  }

  predicate CallEnds(call: Call) {
    (call.phase.Closing? || call.phase.Settled?) && Ends(call.phase.source)
  }

  /** The call reached the inner iterator. */
  predicate Asks(call: Call) {
    call.phase.AwaitingInner? || ((call.phase.Closing? || call.phase.Settled?) && call.phase.source.Replied?)
  }

  ghost predicate HasOperation(s: State, call: int) {
    exists k :: 0 <= k < |s.operations| && s.operations[k].call == call
  }

  /** What the wrapped iterator would have shown the caller, had closing nothing to add. */
  function Expected(call: Call, source: Source): Completion {
    match source
    case NoRoute(error) => Threw(error)
    case NoIterator(error) => Threw(error)
    case NoMethod => if call.name == Throw then Threw(call.argument) else Returned(call.argument, true)
    case Replied(InnerResult(value, done)) => Returned(value, done)
    case Replied(InnerError(error)) => Threw(error)
  }

  ghost predicate PhaseFits(s: State, call: Call) {
    match call.phase
    case AwaitingRoute => s.slot.Asked?
    case AwaitingInner => s.inner.Some? && call.name in s.inner.value
    case Closing(source, pending, disposing) =>
      && Ends(source) && s.closed && s.inner.Some? && (source.NoMethod? <==> call.name !in s.inner.value)
      && pending == Expected(call, source)
      && HasRoute(s) && (disposing ==> RouteOutcome(s).value.owned)
    case Settled(source, report, closeError) =>
      && report == (if closeError.Some? then Threw(closeError.value) else Expected(call, source))
      && (closeError.Some? ==> Ends(source) && HasRoute(s) && RouteOutcome(s).value.owned)
      && match source
         case NoRoute(error) => RouteKnown(s) && RouteOutcome(s) == Err(error)
         case NoIterator(_) => HasRoute(s)
         case NoMethod => s.closed && s.inner.Some? && call.name !in s.inner.value
         case Replied(_) => s.inner.Some? && call.name in s.inner.value && (Ends(source) ==> s.closed)
  }

  ghost predicate OperationFits(s: State, operation: Operation) {
    && HasRoute(s) && operation.route == RouteOutcome(s).value
    && operation.call < |s.calls| && Asks(s.calls[operation.call])
    && operation.name == s.calls[operation.call].name && operation.argument == s.calls[operation.call].argument
  }

  /** The closure variables agree with the calls: closed only once some call has ended the stream. */
  ghost predicate StreamFits(s: State) {
    && s.resolutions == (if s.slot.NotAsked? then 0 else 1)
    && (s.inner.Some? ==> HasRoute(s))
    && (s.closed ==> s.inner.Some? && exists i :: 0 <= i < |s.calls| && CallEnds(s.calls[i]))
    && s.closes == (if s.closed && RouteOutcome(s).value.owned then [RouteOutcome(s).value.dispatcher] else [])
  }

  ghost predicate CallsFit(s: State) {
    && (forall i :: 0 <= i < |s.calls| ==> PhaseFits(s, s.calls[i]))
    && (forall i, j :: 0 <= i < j < |s.calls| && s.calls[i].phase.AwaitingRoute? ==> s.calls[j].phase.AwaitingRoute?)
  }

  ghost predicate OperationsFit(s: State) {
    && (forall k :: 0 <= k < |s.operations| ==> OperationFits(s, s.operations[k]))
    && (forall k, l :: 0 <= k < l < |s.operations| ==> s.operations[k].call < s.operations[l].call)
    && (forall i :: 0 <= i < |s.calls| && Asks(s.calls[i]) ==> HasOperation(s, i))
  }

  ghost predicate Invariant(s: State) {
    StreamFits(s) && CallsFit(s) && OperationsFit(s)
  }

  /** Going on without disturbing what is already settled: routes, methods and closing are never taken back. */
  ghost predicate Extends(s: State, t: State) {
    && t.provider == s.provider && t.capability == s.capability
    && (s.slot.Asked? ==> t.slot.Asked? && t.slot.policy == s.slot.policy && (s.slot.issued.Some? ==> t.slot == s.slot))
    && (s.inner.Some? ==> t.inner == s.inner)
    && (s.closed ==> t.closed)
    && |s.calls| <= |t.calls|
  }

  lemma FittingPhaseStays(s: State, t: State, call: Call)
    requires Extends(s, t) && PhaseFits(s, call)
    ensures PhaseFits(t, call)
  {
    hide ResolveRoute;
  }

  lemma CallsStayFitting(s: State, t: State, changed: nat)
    requires CallsFit(s) && Extends(s, t) && changed < |s.calls| == |t.calls|
    requires forall i :: 0 <= i < |s.calls| && i != changed ==> t.calls[i] == s.calls[i]
    requires PhaseFits(t, t.calls[changed]) && !t.calls[changed].phase.AwaitingRoute?
    requires forall j :: 0 <= j < changed ==> !s.calls[j].phase.AwaitingRoute?
    ensures CallsFit(t)
  {
    hide PhaseFits, Extends;
    forall i | 0 <= i < |t.calls| ensures PhaseFits(t, t.calls[i]) {
      if i != changed { FittingPhaseStays(s, t, s.calls[i]); }
    }
  }

  lemma OperationsStayFitting(s: State, t: State)
    requires OperationsFit(s) && Extends(s, t) && t.operations == s.operations
    requires forall i :: 0 <= i < |s.calls| ==> (Asks(s.calls[i]) <==> Asks(t.calls[i]))
    requires forall i :: 0 <= i < |s.calls| ==>
        t.calls[i].name == s.calls[i].name && t.calls[i].argument == s.calls[i].argument
    requires forall i :: |s.calls| <= i < |t.calls| ==> !Asks(t.calls[i])
    ensures OperationsFit(t)
  {
    hide ResolveRoute, Asks;
    forall i | 0 <= i < |t.calls| && Asks(t.calls[i]) ensures HasOperation(t, i) {
      var k :| 0 <= k < |s.operations| && s.operations[k].call == i;
      assert t.operations[k].call == i;
    }
    forall k | 0 <= k < |t.operations| ensures OperationFits(t, t.operations[k]) {
      assert OperationFits(s, s.operations[k]);
    }
  }

  lemma InvokeKeepsInvariant(s: State, event: Event)
    requires Invariant(s) && event.Invoke?
    ensures Invariant(Step(s, event))
  {
    hide ResolveRoute;
    var t := Step(s, event);
    assert forall i :: 0 <= i < |s.calls| ==> t.calls[i] == s.calls[i];
    forall i | 0 <= i < |t.calls| ensures PhaseFits(t, t.calls[i]) {
      if i < |s.calls| { FittingPhaseStays(s, t, s.calls[i]); }
    }
    OperationsStayFitting(s, t);
  }

  lemma BeginCloseKeepsInvariant(s: State, call: nat, source: Source, pending: Completion)
    requires Invariant(s) && call < |s.calls| && s.inner.Some? && Ends(source)
    requires pending == Expected(s.calls[call], source)
    requires source.NoMethod? <==> s.calls[call].name !in s.inner.value
    requires if source.NoMethod? then s.calls[call].phase.AwaitingRoute? else s.calls[call].phase.AwaitingInner?
    requires forall j :: 0 <= j < call ==> !s.calls[j].phase.AwaitingRoute?
    ensures Invariant(BeginClose(s, call, source, pending))
  {
    hide ResolveRoute;
    var t := BeginClose(s, call, source, pending);
    assert CallEnds(t.calls[call]);
    CallsStayFitting(s, t, call);
    OperationsStayFitting(s, t);
  }

  lemma CreationKeepsInvariant(s: State, methods: set<Method>)
    requires Invariant(s) && HasRoute(s) && s.inner.None?
    ensures Invariant(s.(inner := Some(methods)))
  {
    hide ResolveRoute;
    var t := s.(inner := Some(methods));
    forall i | 0 <= i < |t.calls| ensures PhaseFits(t, t.calls[i]) {
      FittingPhaseStays(s, t, s.calls[i]);
    }
    OperationsStayFitting(s, t);
  }

  lemma AskKeepsOperations(s: State, call: nat, t: State)
    requires OperationsFit(s) && CallsFit(s) && HasRoute(s) && call < |s.calls| && s.calls[call].phase.AwaitingRoute?
    requires var operation := Operation(call, s.calls[call].name, s.calls[call].argument, RouteOutcome(s).value);
             t == WithPhase(s, call, AwaitingInner).(operations := s.operations + [operation])
    ensures OperationsFit(t)
  {
    hide ResolveRoute, PhaseFits;
    assert forall i :: call <= i < |s.calls| ==> !Asks(s.calls[i]);
    forall k | 0 <= k < |s.operations| ensures OperationFits(t, s.operations[k]) && s.operations[k].call < call {
      assert OperationFits(s, s.operations[k]);
    }
    forall i | 0 <= i < |t.calls| && Asks(t.calls[i]) ensures HasOperation(t, i) {
      if i == call {
        assert t.operations[|s.operations|].call == call;
      } else {
        var k :| 0 <= k < |s.operations| && s.operations[k].call == i;
        assert t.operations[k].call == i;
      }
    }
  }

  lemma AskKeepsInvariant(s: State, call: nat, t: State)
    requires Invariant(s) && HasRoute(s) && s.inner.Some? && call < |s.calls|
    requires s.calls[call].phase.AwaitingRoute? && s.calls[call].name in s.inner.value
    requires forall j :: 0 <= j < call ==> !s.calls[j].phase.AwaitingRoute?
    requires var operation := Operation(call, s.calls[call].name, s.calls[call].argument, RouteOutcome(s).value);
             t == WithPhase(s, call, AwaitingInner).(operations := s.operations + [operation])
    ensures Invariant(t)
  {
    hide ResolveRoute, OperationsFit;
    AskKeepsOperations(s, call, t);
    CallsStayFitting(s, t, call);
  }

  lemma FailedCallKeepsInvariant(s: State, call: nat, source: Source)
    requires Invariant(s) && call < |s.calls| && s.calls[call].phase.AwaitingRoute? && RouteKnown(s)
    requires forall j :: 0 <= j < call ==> !s.calls[j].phase.AwaitingRoute?
    requires if RouteOutcome(s).Err? then source == NoRoute(RouteOutcome(s).error) else source.NoIterator?
    ensures Invariant(WithPhase(s, call, Settled(source, Threw(source.error), None)))
  {
    hide ResolveRoute;
    var t := WithPhase(s, call, Settled(source, Threw(source.error), None));
    assert s.closed ==> forall i :: 0 <= i < |s.calls| && CallEnds(s.calls[i]) ==> t.calls[i] == s.calls[i];
    CallsStayFitting(s, t, call);
    OperationsStayFitting(s, t);
  }

  lemma ResumeKeepsInvariant(s: State, event: Event)
    requires Invariant(s) && event.Resume? && Enabled(s, event)
    ensures Invariant(Step(s, event))
  {
    hide ResolveRoute, Invariant;
    var call := event.call;
    if RouteOutcome(s).Err? {
      FailedCallKeepsInvariant(s, call, NoRoute(RouteOutcome(s).error));
    } else if s.inner.None? && event.creation.Err? {
      FailedCallKeepsInvariant(s, call, NoIterator(event.creation.error));
    } else {
      var created := if s.inner.Some? then s else s.(inner := Some(event.creation.value));
      if s.inner.None? { CreationKeepsInvariant(s, event.creation.value); }
      if s.calls[call].name !in created.inner.value {
        BeginCloseKeepsInvariant(created, call, NoMethod, Expected(s.calls[call], NoMethod));
      } else {
        AskKeepsInvariant(created, call, Step(s, event));
      }
    }
  }

  lemma SettlingKeepsInvariant(s: State, event: Event)
    requires Invariant(s) && (event.InnerSettled? || event.CloseSettled?) && Enabled(s, event)
    ensures Invariant(Step(s, event))
  {
    hide ResolveRoute;
    var t := Step(s, event);
    var call := event.call;
    assert PhaseFits(s, s.calls[call]);
    if event.InnerSettled? && Ends(Replied(event.reply)) {
      BeginCloseKeepsInvariant(s, call, Replied(event.reply), Expected(s.calls[call], Replied(event.reply)));
    } else {
      assert CallEnds(s.calls[call]) ==> CallEnds(t.calls[call]);
      assert forall i :: 0 <= i < |s.calls| && CallEnds(s.calls[i]) ==> CallEnds(t.calls[i]);
      CallsStayFitting(s, t, call);
      OperationsStayFitting(s, t);
    }
  }

  lemma OtherStepsKeepInvariant(s: State, event: Event)
    requires Invariant(s) && (event.RouteSettled? || event.PolicyChanged?) && Enabled(s, event)
    ensures Invariant(Step(s, event))
  {
    hide ResolveRoute;
    var t := Step(s, event);
    forall i | 0 <= i < |t.calls| ensures PhaseFits(t, t.calls[i]) {
      FittingPhaseStays(s, t, s.calls[i]);
    }
    OperationsStayFitting(s, t);
  }

  lemma EveryStepKeepsInvariant(s: State, event: Event)
    requires Invariant(s) && Enabled(s, event)
    ensures Invariant(Step(s, event))
  {
    hide Invariant, Step, Enabled;
    match event
    case Invoke(_, _) => InvokeKeepsInvariant(s, event);
    case Resume(_, _) => ResumeKeepsInvariant(s, event);
    case InnerSettled(_, _) => SettlingKeepsInvariant(s, event);
    case CloseSettled(_, _) => SettlingKeepsInvariant(s, event);
    case RouteSettled(_) => OtherStepsKeepInvariant(s, event);
    case PolicyChanged(_) => OtherStepsKeepInvariant(s, event);
  }

  /** Any run: calls, settlements and changes of the routing state in any order. */
  ghost predicate Feasible(s: State, events: seq<Event>)
    decreases |events|
  {
    events == [] || (Enabled(s, events[0]) && Feasible(Step(s, events[0]), events[1..]))
  }

  ghost function Run(s: State, events: seq<Event>): State
    requires Feasible(s, events)
    decreases |events|
  {
    if events == [] then s else Run(Step(s, events[0]), events[1..])
  }

  lemma {:induction false} EveryRunKeepsInvariant(s: State, events: seq<Event>)
    requires Feasible(s, events) && Invariant(s)
    ensures Invariant(Run(s, events))
    decreases |events|
  {
    hide Invariant, Step, Enabled;
    if events != [] {
      EveryStepKeepsInvariant(s, events[0]);
      EveryRunKeepsInvariant(Step(s, events[0]), events[1..]);
    }
  }

  /** The routing state in force at the first call of the stream. */
  ghost function PolicyAtFirstCall(policy: Option<RoutingState>, events: seq<Event>): Option<RoutingState>
    decreases |events|
  {
    if events == [] || events[0].Invoke? then policy
    else PolicyAtFirstCall(if events[0].PolicyChanged? then events[0].policy else policy, events[1..])
  }

  lemma {:induction false} AskedPolicyNeverChanges(s: State, events: seq<Event>)
    requires Feasible(s, events)
    ensures Run(s, events).provider == s.provider && Run(s, events).capability == s.capability
    ensures s.slot.Asked? ==> Run(s, events).slot.Asked? && Run(s, events).slot.policy == s.slot.policy
    ensures s.slot.NotAsked? && Run(s, events).slot.Asked? ==>
        Run(s, events).slot.policy == PolicyAtFirstCall(s.policy, events)
    decreases |events|
  {
    hide ResolveRoute, RouteOutcome;
    if events != [] {
      AskedPolicyNeverChanges(Step(s, events[0]), events[1..]);
    }
  }

  /** The operation carries its call's method and argument, under the route chosen from the routing state `asked`. */
  ghost predicate ServesItsCall(s: State, operation: Operation, asked: Option<RoutingState>) {
    && RouteKnown(s)
    && ResolveRoute(asked, s.provider, s.capability, s.slot.issued.value) == Ok(operation.route)
    && operation.call < |s.calls|
    && operation.name == s.calls[operation.call].name && operation.argument == s.calls[operation.call].argument
  }

  /**
   However calls overlap and however the routing state changes, the route is resolved at most once, from the routing
   state at the first call, and every operation on the inner iterator runs under that one route, once per call, with the
   call's method and argument, in the order of the calls.
   */
  lemma EveryOperationRunsUnderTheFirstRoute(provider: string, capability: Capability, policy: Option<RoutingState>,
      events: seq<Event>)
    requires Feasible(Initial(provider, capability, policy), events)
    ensures var s := Run(Initial(provider, capability, policy), events);
            && s.resolutions <= 1 && s.provider == provider && s.capability == capability
            && (forall k :: 0 <= k < |s.operations| ==>
                ServesItsCall(s, s.operations[k], PolicyAtFirstCall(policy, events)))
            && (forall k, l :: 0 <= k < l < |s.operations| ==> s.operations[k].call < s.operations[l].call)
            && (forall i :: 0 <= i < |s.calls| ==> (Asks(s.calls[i]) <==> HasOperation(s, i)))
  {
    var start := Initial(provider, capability, policy);
    var s := Run(start, events);
    EveryRunKeepsInvariant(start, events);
    AskedPolicyNeverChanges(start, events);
    hide ResolveRoute;
    forall k | 0 <= k < |s.operations| ensures ServesItsCall(s, s.operations[k], PolicyAtFirstCall(policy, events)) {
      assert OperationFits(s, s.operations[k]);
    }
    forall i | 0 <= i < |s.calls| && HasOperation(s, i) ensures Asks(s.calls[i]) {
      var k :| 0 <= k < |s.operations| && s.operations[k].call == i;
      assert OperationFits(s, s.operations[k]);
    }
  }

  /**
   Every settled call reports exactly what the inner iterator answered to it, once (or the route's, the creation's or
   the missing method's outcome) unless closing the owned dispatcher failed, and then it reports that failure.
   */
  lemma EveryReportIsTheInnerReply(provider: string, capability: Capability, policy: Option<RoutingState>,
      events: seq<Event>, call: nat)
    requires Feasible(Initial(provider, capability, policy), events)
    requires call < |Run(Initial(provider, capability, policy), events).calls|
    requires Run(Initial(provider, capability, policy), events).calls[call].phase.Settled?
    ensures var s := Run(Initial(provider, capability, policy), events);
            var phase := s.calls[call].phase;
            && (phase.closeError.None? ==> phase.report == Expected(s.calls[call], phase.source))
            && (phase.closeError.Some? ==>
                  phase.report == Threw(phase.closeError.value) && |s.closes| == 1 && Ends(phase.source))
            && (phase.source.Replied? ==> HasOperation(s, call))
            && Answers(events, call) == if phase.source.Replied? then [phase.source.reply] else []
  {
    RecordedReplyIsTheAnswer(provider, capability, policy, events, call);
    var start := Initial(provider, capability, policy);
    EveryRunKeepsInvariant(start, events);
    var s := Run(start, events);
    assert PhaseFits(s, s.calls[call]);
  }

  /** The replies that the inner iterator gives to a call in a run. */
  function Answers(events: seq<Event>, call: nat): seq<Reply> {
    if events == [] then []
    else
      (if events[0].InnerSettled? && events[0].call == call then [events[0].reply] else []) + Answers(events[1..], call)
  }

  /** The reply that a call has recorded, if it has any. */
  function Recorded(s: State, call: nat): seq<Reply> {
    if call < |s.calls| && (s.calls[call].phase.Closing? || s.calls[call].phase.Settled?)
       && s.calls[call].phase.source.Replied?
    then [s.calls[call].phase.source.reply] else []
  }

  /** A call past the inner iterator keeps its record. */
  predicate IsPast(s: State, call: nat) {
    call < |s.calls| && (s.calls[call].phase.Closing? || s.calls[call].phase.Settled?)
  }

  lemma BeginCloseRecords(s: State, call: nat, source: Source, pending: Completion, other: nat)
    requires call < |s.calls| && HasRoute(s) && !IsPast(s, call)
    ensures Recorded(BeginClose(s, call, source, pending), other)
            == Recorded(s, other) + if other == call && source.Replied? then [source.reply] else []
    ensures IsPast(s, other) ==> IsPast(BeginClose(s, call, source, pending), other)
  {
    hide ResolveRoute;
  }

  lemma ResumeRecords(s: State, event: Event, call: nat)
    requires Enabled(s, event) && event.Resume?
    ensures Recorded(Step(s, event), call) == Recorded(s, call) && (IsPast(s, call) ==> IsPast(Step(s, event), call))
  {
    hide ResolveRoute;
  }

  lemma SettlingRecords(s: State, event: Event, call: nat)
    requires Enabled(s, event) && event.InnerSettled?
    ensures Recorded(Step(s, event), call) == Recorded(s, call) + if event.call == call then [event.reply] else []
    ensures IsPast(s, call) ==> IsPast(Step(s, event), call) && event.call != call
  {
    var outcome :=
      if event.reply.InnerResult? then Returned(event.reply.value, event.reply.done) else Threw(event.reply.error);
    BeginCloseRecords(s, event.call, Replied(event.reply), outcome, call);
    hide ResolveRoute, BeginClose;
  }

  lemma StepRecords(s: State, event: Event, call: nat)
    requires Enabled(s, event)
    ensures Recorded(Step(s, event), call) == Recorded(s, call) + Answers([event], call)
    ensures IsPast(s, call) ==> IsPast(Step(s, event), call) && Answers([event], call) == []
  {
    hide ResolveRoute, Resumed, BeginClose;
    assert [event][1..] == [];
    if event.Resume? {
      ResumeRecords(s, event, call);
    } else if event.InnerSettled? {
      SettlingRecords(s, event, call);
    }
  }

  lemma {:induction false} RunRecords(s: State, events: seq<Event>, call: nat)
    requires Feasible(s, events)
    ensures Recorded(Run(s, events), call) == Recorded(s, call) + Answers(events, call)
    decreases |events|
  {
    if events != [] {
      StepRecords(s, events[0], call);
      assert [events[0]][1..] == [];
      assert Answers(events, call) == Answers([events[0]], call) + Answers(events[1..], call);
      hide Step, Enabled, Recorded;
      RunRecords(Step(s, events[0]), events[1..], call);
    }
  }

  /**
   What a call records is what the inner iterator answered to it: in every run the replies to a call are none, or the
   one that the call has recorded as its source.
   */
  lemma RecordedReplyIsTheAnswer(provider: string, capability: Capability, policy: Option<RoutingState>,
                                 events: seq<Event>, call: nat)
    requires Feasible(Initial(provider, capability, policy), events)
    ensures Answers(events, call) == Recorded(Run(Initial(provider, capability, policy), events), call)
    ensures |Answers(events, call)| <= 1
  {
    RunRecords(Initial(provider, capability, policy), events, call);
    assert [] + Answers(events, call) == Answers(events, call);
  }

  /** The methods and arguments of the calls of a run, in order. */
  function Invocations(events: seq<Event>): seq<(Method, Value)> {
    if events == [] then []
    else (if events[0].Invoke? then [(events[0].name, events[0].argument)] else []) + Invocations(events[1..])
  }

  /** How closing ended for a call in a run. */
  function Closings(events: seq<Event>, call: nat): seq<Option<Value>> {
    if events == [] then []
    else
      (if events[0].CloseSettled? && events[0].call == call then [events[0].error] else [])
      + Closings(events[1..], call)
  }

  /** The error with which a call resumes: that of the route, or that of creating the inner iterator. */
  function FailureAt(s: State, event: Event, call: nat): seq<Value>
    requires Enabled(s, event)
  {
    if !event.Resume? || event.call != call then []
    else if RouteOutcome(s).Err? then [RouteOutcome(s).error]
    else if s.inner.None? && event.creation.Err? then [event.creation.error]
    else []
  }

  ghost function Failures(s: State, events: seq<Event>, call: nat): seq<Value>
    requires Feasible(s, events)
    decreases |events|
  {
    if events == [] then [] else FailureAt(s, events[0], call) + Failures(Step(s, events[0]), events[1..], call)
  }

  function Recordings(calls: seq<Call>): seq<(Method, Value)> {
    seq(|calls|, i requires 0 <= i < |calls| => (calls[i].name, calls[i].argument))
  }

  function RecordedClosing(s: State, call: nat): seq<Option<Value>> {
    if call < |s.calls| && s.calls[call].phase.Settled? && Ends(s.calls[call].phase.source)
    then [s.calls[call].phase.closeError] else []
  }

  function RecordedFailure(s: State, call: nat): seq<Value> {
    if call < |s.calls| && s.calls[call].phase.Settled?
       && (s.calls[call].phase.source.NoRoute? || s.calls[call].phase.source.NoIterator?)
    then [s.calls[call].phase.source.error] else []
  }

  lemma StepRecordsInvocation(s: State, event: Event)
    requires Enabled(s, event)
    ensures Recordings(Step(s, event).calls) == Recordings(s.calls) + Invocations([event])
  {
    hide ResolveRoute;
    assert [event][1..] == [];
  }

  lemma {:induction false} RunRecordsInvocations(s: State, events: seq<Event>)
    requires Feasible(s, events)
    ensures Recordings(Run(s, events).calls) == Recordings(s.calls) + Invocations(events)
    decreases |events|
  {
    hide Step, Enabled, Recordings;
    if events != [] {
      StepRecordsInvocation(s, events[0]);
      RunRecordsInvocations(Step(s, events[0]), events[1..]);
      assert Invocations(events) == Invocations([events[0]]) + Invocations(events[1..]) by {
        assert [events[0]][1..] == [];
      }
    }
  }

  lemma ResumeRecordsEnding(s: State, event: Event, call: nat)
    requires Invariant(s) && Enabled(s, event) && event.Resume?
    ensures RecordedClosing(Step(s, event), call) == RecordedClosing(s, call)
    ensures RecordedFailure(Step(s, event), call) == RecordedFailure(s, call) + FailureAt(s, event, call)
  {
    hide ResolveRoute, Invariant;
  }

  lemma SettlingRecordsEnding(s: State, event: Event, call: nat)
    requires Enabled(s, event) && (event.InnerSettled? || event.CloseSettled?)
    requires event.CloseSettled? ==> Ends(s.calls[event.call].phase.source)
    ensures RecordedClosing(Step(s, event), call)
        == RecordedClosing(s, call) + if event.CloseSettled? && event.call == call then [event.error] else []
    ensures RecordedFailure(Step(s, event), call) == RecordedFailure(s, call)
  {
    hide ResolveRoute, RouteOutcome;
  }

  lemma ClosingCallsEnd(s: State, call: nat)
    requires Invariant(s) && call < |s.calls| && s.calls[call].phase.Closing?
    ensures Ends(s.calls[call].phase.source)
  {
    hide ResolveRoute;
    assert PhaseFits(s, s.calls[call]);
  }

  lemma StepRecordsEnding(s: State, event: Event, call: nat)
    requires Invariant(s) && Enabled(s, event)
    ensures RecordedClosing(Step(s, event), call) == RecordedClosing(s, call) + Closings([event], call)
    ensures RecordedFailure(Step(s, event), call) == RecordedFailure(s, call) + FailureAt(s, event, call)
  {
    hide ResolveRoute, RouteOutcome, Resumed, BeginClose, Invariant;
    assert [event][1..] == [];
    match event
    case Resume(_, _) => ResumeRecordsEnding(s, event, call);
    case InnerSettled(_, _) => SettlingRecordsEnding(s, event, call);
    case CloseSettled(_, _) =>
      ClosingCallsEnd(s, event.call);
      SettlingRecordsEnding(s, event, call);
    case _ =>
  }

  lemma {:induction false} RunRecordsEnding(s: State, events: seq<Event>, call: nat)
    requires Feasible(s, events) && Invariant(s)
    ensures RecordedClosing(Run(s, events), call) == RecordedClosing(s, call) + Closings(events, call)
    ensures RecordedFailure(Run(s, events), call) == RecordedFailure(s, call) + Failures(s, events, call)
    decreases |events|
  {
    hide Step, Enabled, Invariant, RecordedClosing, RecordedFailure, FailureAt;
    if events != [] {
      StepRecordsEnding(s, events[0], call);
      EveryStepKeepsInvariant(s, events[0]);
      RunRecordsEnding(Step(s, events[0]), events[1..], call);
      assert Closings(events, call) == Closings([events[0]], call) + Closings(events[1..], call) by {
        assert [events[0]][1..] == [];
      }
    }
  }

  /**
   What the caller of a method sees: the error it resumed with, the error of closing, the inner iterator's reply or the
   answer of a missing method once closing is over, or at once a reply that does not end the stream.
   */
  function Outcome(invocation: (Method, Value), failures: seq<Value>, answers: seq<Reply>,
      closings: seq<Option<Value>>): Option<Completion> {
    if failures != [] then Some(Threw(failures[0]))
    else if closings != [] && closings[0].Some? then Some(Threw(closings[0].value))
    else if answers == [] then
      if closings == [] then None
      else if invocation.0 == Throw then Some(Threw(invocation.1))
      else Some(Returned(invocation.1, true))
    else
      match answers[0]
      case InnerResult(value, false) => Some(Returned(value, false))
      case InnerResult(value, true) => if closings == [] then None else Some(Returned(value, true))
      case InnerError(error) => if closings == [] then None else Some(Threw(error))
  }

  function Seen(call: Call): Option<Completion> {
    if call.phase.Settled? then Some(call.phase.report) else None
  }

  lemma RecordsGiveTheOutcome(s: State, call: nat)
    requires call < |s.calls| && PhaseFits(s, s.calls[call])
    ensures var c := s.calls[call];
            Seen(c) == Outcome((c.name, c.argument), RecordedFailure(s, call), Recorded(s, call),
                               RecordedClosing(s, call))
  {
    hide ResolveRoute, RouteOutcome, HasRoute;
  }

  /**
   Every call of every run settles exactly when the events say so, and with what they say: once it has resumed with an
   error, its inner reply does not end the stream, or the close it awaits is over; never before, and never differently.
   Each of these happens to it at most once.
   */
  lemma EveryCallSettlesByItsEvents(provider: string, capability: Capability, policy: Option<RoutingState>,
      events: seq<Event>, call: nat)
    requires Feasible(Initial(provider, capability, policy), events)
    ensures var start := Initial(provider, capability, policy);
            var s := Run(start, events);
            && |s.calls| == |Invocations(events)|
            && |Failures(start, events, call)| + |Closings(events, call)| <= 1 && |Answers(events, call)| <= 1
            && (call < |s.calls| ==>
                  && Invocations(events)[call] == (s.calls[call].name, s.calls[call].argument)
                  && Seen(s.calls[call]) == Outcome(Invocations(events)[call], Failures(start, events, call),
                                                    Answers(events, call), Closings(events, call)))
  {
    var start := Initial(provider, capability, policy);
    var s := Run(start, events);
    RunRecordsInvocations(start, events);
    assert [] + Invocations(events) == Invocations(events);
    assert |Recordings(s.calls)| == |s.calls|;
    RunRecordsEnding(start, events, call);
    assert [] + Closings(events, call) == Closings(events, call);
    assert [] + Failures(start, events, call) == Failures(start, events, call);
    RecordedReplyIsTheAnswer(provider, capability, policy, events, call);
    EveryRunKeepsInvariant(start, events);
    hide Run, Feasible, Failures, Closings, Answers, Invocations, Outcome;
    if call < |s.calls| {
      assert PhaseFits(s, s.calls[call]);
      assert Recordings(s.calls)[call] == (s.calls[call].name, s.calls[call].argument);
      RecordsGiveTheOutcome(s, call);
    }
    hide Invariant;
  }

  /**
   The dispatcher protocol: close is called at most once, only on an owned dispatcher, only after some call has ended
   the stream, and before any call that reached the inner iterator reports done, an error or a missing method.
   */
  lemma CloseProtocol(provider: string, capability: Capability, policy: Option<RoutingState>, events: seq<Event>)
    requires Feasible(Initial(provider, capability, policy), events)
    ensures var s := Run(Initial(provider, capability, policy), events);
            && |s.closes| <= 1
            && (s.closes != [] ==>
                  && HasRoute(s) && RouteOutcome(s).value.owned && s.closes == [RouteOutcome(s).value.dispatcher]
                  && exists i :: 0 <= i < |s.calls| && CallEnds(s.calls[i]))
            && forall i :: 0 <= i < |s.calls| && s.calls[i].phase.Settled? ==>
                 var phase := s.calls[i].phase;
                 && (Ends(phase.source) ==>
                       && HasRoute(s) && s.closed
                       && (RouteOutcome(s).value.owned ==> s.closes == [RouteOutcome(s).value.dispatcher]))
                 && (!Ends(phase.source) && (phase.report.Threw? || phase.report.done) ==>
                       phase.source.NoRoute? || phase.source.NoIterator?)
  {
    var start := Initial(provider, capability, policy);
    EveryRunKeepsInvariant(start, events);
    var s := Run(start, events);
    hide ResolveRoute;
    forall i | 0 <= i < |s.calls| && s.calls[i].phase.Settled? ensures PhaseFits(s, s.calls[i]) {
    }
  }

  /**
   In every run, a dispatcher that was made for an issued handle is still open exactly as long as no call has ended the
   stream through the inner iterator.
   */
  lemma OwnedDispatcherStaysOpenExactlyUntilTheEnd(provider: string, capability: Capability,
      policy: Option<RoutingState>, events: seq<Event>)
    requires Feasible(Initial(provider, capability, policy), events)
    requires var s := Run(Initial(provider, capability, policy), events); HasRoute(s) && RouteOutcome(s).value.owned
    ensures var s := Run(Initial(provider, capability, policy), events);
            s.closes == [] <==> forall i :: 0 <= i < |s.calls| ==> !CallEnds(s.calls[i])
  {
    var start := Initial(provider, capability, policy);
    EveryRunKeepsInvariant(start, events);
    var s := Run(start, events);
    hide ResolveRoute;
    forall i | 0 <= i < |s.calls| && CallEnds(s.calls[i]) ensures s.closed {
      assert PhaseFits(s, s.calls[i]);
    }
  }

  /** A stream with a handle of its own, up to its one call having been resumed. */
  function ResumedFirstCall(argument: Value, handle: string, creation: Result<set<Method>, Value>): (s: State)
    ensures HasRoute(s) && RouteOutcome(s) == Ok(Route(ForHandle(handle), true)) && |s.calls| == 1
  {
    var called := Step(Initial("provider", PerProvider, None), Invoke(Next, argument));
    Step(Step(called, RouteSettled(Ok(handle))), Resume(0, creation))
  }

  /** Concrete runs: a dispatcher is left open when creating the inner iterator fails, its only call being over. */
  lemma FailedCreationLeavesTheDispatcherOpen(argument: Value, handle: string, error: Value)
    ensures var s := ResumedFirstCall(argument, handle, Err(error));
            s.calls[0].phase == Settled(NoIterator(error), Threw(error), None) && s.closes == []
  {
  }

  /**
   Concrete runs: the inner iterator is done with a value, but closing fails, and the caller gets that error instead.
   */
  lemma FailedCloseReplacesTheResult(argument: Value, handle: string, value: Value, error: Value)
    ensures var asked := ResumedFirstCall(argument, handle, Ok({Next}));
            && Enabled(asked, InnerSettled(0, InnerResult(value, true)))
            && var closing := Step(asked, InnerSettled(0, InnerResult(value, true)));
               && Enabled(closing, CloseSettled(0, Some(error))) && closing.closes == [ForHandle(handle)]
               && Step(closing, CloseSettled(0, Some(error))).calls[0].phase
                  == Settled(Replied(InnerResult(value, true)), Threw(error), Some(error))
  {
  }

  /** No call failed before reaching the inner iterator. */
  ghost predicate AllReachInner(s: State) {
    forall i :: 0 <= i < |s.calls| ==> s.calls[i].phase.AwaitingRoute? || Asks(s.calls[i])
  }

  lemma {:induction false} CallsAreNumbered(s: State, k: nat)
    requires Invariant(s) && AllReachInner(s) && k < |s.operations|
    ensures s.operations[k].call == k
  {
    hide StreamFits, CallsFit, Asks;
    if k > 0 { CallsAreNumbered(s, k - 1); }
    assert OperationFits(s, s.operations[k]);
    assert CallsFit(s);
    assert Asks(s.calls[k]) by { EarlierCallsAsk(s, k, s.operations[k].call); }
    assert HasOperation(s, k);
    var l :| 0 <= l < |s.operations| && s.operations[l].call == k;
    assert k - 1 < l;
    assert l <= k;
  }

  lemma EarlierCallsAsk(s: State, i: int, j: int)
    requires CallsFit(s) && AllReachInner(s) && 0 <= i <= j < |s.calls| && Asks(s.calls[j])
    ensures Asks(s.calls[i])
  {
    assert i < j ==> !s.calls[i].phase.AwaitingRoute?;
  }

  /**
   When the inner iterator has all three methods and neither the route nor its creation fails, the inner iterator is
   asked exactly the calls of the consumer, one by one and in order.
   */
  lemma InnerSeesExactlyTheCalls(provider: string, capability: Capability, policy: Option<RoutingState>,
      events: seq<Event>)
    requires Feasible(Initial(provider, capability, policy), events)
    requires AllReachInner(Run(Initial(provider, capability, policy), events))
    ensures var s := Run(Initial(provider, capability, policy), events);
            && |s.operations| <= |s.calls|
            && (forall k :: 0 <= k < |s.operations| ==>
                  s.operations[k].call == k && s.operations[k].name == s.calls[k].name
                      && s.operations[k].argument == s.calls[k].argument)
            && (forall i :: |s.operations| <= i < |s.calls| ==> s.calls[i].phase.AwaitingRoute?)
  {
    var start := Initial(provider, capability, policy);
    EveryRunKeepsInvariant(start, events);
    var s := Run(start, events);
    forall k | 0 <= k < |s.operations| ensures s.operations[k].call == k && OperationFits(s, s.operations[k]) {
      CallsAreNumbered(s, k);
    }
    forall i | |s.operations| <= i < |s.calls| ensures s.calls[i].phase.AwaitingRoute? {
      assert !HasOperation(s, i);
    }
    assert s.operations != [] ==> OperationFits(s, s.operations[|s.operations| - 1]);
  }
}
