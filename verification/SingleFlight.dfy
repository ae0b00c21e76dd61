/**
 The single-flight loaders `loadStatus` and `loadInventory` of `app.js` (and `refresh`, `refreshInventory` of the
 plugin's `client.js`): concurrent callers share one loading promise, and a call made during a fetch makes the loader
 fetch again. This module follows one key; the loaders of different keys share nothing.

 A step is what runs between two awaits. Leaving the loop and clearing the slot are two steps, because the slot is
 cleared by the `finally` callback, one microtask after the loop has ended.
 */
module SingleFlight {
  import opened Wrappers

  type Value = string

  /** The slot: empty, fetching since revision `loaded`, or loop ended and not yet cleared. */
  datatype Load = Idle | Fetching(loaded: nat) | Draining

  /** What a promise resolved with, and how many fetches had finished then. */
  datatype Resolution = Resolution(finished: nat, value: Option<Value>)

  /** A call: how many fetches had begun before it, whether it met a draining slot, and how its promise resolved. */
  datatype Call = Call(begunBefore: nat, whileDraining: bool, resolution: Option<Resolution>)

  /** `results` are the applied outcomes of the finished fetches in order, None for a failed one; `begun` counts all. */
  datatype State = State(revision: nat, load: Load, begun: nat, results: seq<Option<Value>>, calls: seq<Call>)

  const START := State(0, Idle, 0, [], [])

  datatype Event = Called | FetchSettled(outcome: Option<Value>) | Cleared

  predicate Enabled(s: State, event: Event) {
    match event
    case Called => true
    case FetchSettled(_) => s.load.Fetching?
    case Cleared => s.load.Draining? && s.results != []
  }

  function Resolve(call: Call, resolution: Resolution): Call {
    if call.resolution.None? then call.(resolution := Some(resolution)) else call
  }

  function Step(s: State, event: Event): State
    requires Enabled(s, event)
  {
    match event
    case Called =>
      var called := s.(revision := s.revision + 1, calls := s.calls + [Call(s.begun, s.load.Draining?, None)]);
      if s.load.Idle? then called.(load := Fetching(called.revision), begun := s.begun + 1) else called
    case FetchSettled(outcome) =>
      var applied := s.(results := s.results + [outcome]);
      if s.load.loaded == s.revision then applied.(load := Draining)
      else applied.(load := Fetching(s.revision), begun := s.begun + 1)
    case Cleared =>
      var resolution := Resolution(|s.results|, s.results[|s.results| - 1]);
      s.(load := Idle, calls := seq(|s.calls|, i requires 0 <= i < |s.calls| => Resolve(s.calls[i], resolution)))
  }

  class Loader {
    var statusLoadRevision: nat
    var statusLoad: Load
    var begun: nat
    var results: seq<Option<Value>>
    var calls: seq<Call>

    ghost function Current(): State
      reads this
    {
      State(statusLoadRevision, statusLoad, begun, results, calls)
    }

    constructor ()
      ensures Current() == START
    {
      statusLoadRevision, statusLoad, begun, results, calls := 0, Idle, 0, [], [];
    }

    /** The head of the loop: remember the revision and begin a fetch. */
    method Fetch()
      modifies this`statusLoad, this`begun
      ensures statusLoad == Fetching(statusLoadRevision) && begun == old(begun) + 1
    {
      statusLoad := Fetching(statusLoadRevision);
      begun := begun + 1;
    }

    method LoadStatus()
      modifies this
      ensures Current() == Step(old(Current()), Called)
    {
      statusLoadRevision := statusLoadRevision + 1;
      calls := calls + [Call(begun, statusLoad.Draining?, None)];
      if statusLoad != Idle { return; }
      Fetch();
    }

    /** The rest of the loop body and its condition. */
    method OnFetchSettled(outcome: Option<Value>)
      requires Enabled(Current(), FetchSettled(outcome))
      modifies this
      ensures Current() == Step(old(Current()), FetchSettled(outcome))
    {
      results := results + [outcome];
      if statusLoad.loaded != statusLoadRevision {
        Fetch();
      } else {
        statusLoad := Draining;
      }
    }

    /** The finally callback, with which the promise every caller holds resolves. */
    method OnFinally()
      requires Enabled(Current(), Cleared)
      modifies this
      ensures Current() == Step(old(Current()), Cleared)
    {
      var resolution := Resolution(|results|, results[|results| - 1]);
      var waiting := calls;
      for k := 0 to |waiting|
        invariant |calls| == |waiting| && Current() == old(Current()).(calls := calls)
        invariant forall i :: 0 <= i < k ==> calls[i] == Resolve(waiting[i], resolution)
        invariant forall i :: k <= i < |waiting| ==> calls[i] == waiting[i]
      {
        if waiting[k].resolution.None? { calls := calls[k := waiting[k].(resolution := Some(resolution))]; }
      }
      statusLoad := Idle;
    }
  }

  /** A promise that resolves after a fetch that began at or after the call has finished. */
  predicate Fresh(call: Call) {
    call.resolution.Some? && call.begunBefore < call.resolution.value.finished
  }

  /**
   Where a call stands: resolved, served by the fetch under way or already finished, or to be served by the next one.
   */
  ghost predicate CallFits(s: State, i: int)
    requires 0 <= i < |s.calls|
  {
    var call := s.calls[i];
    if call.resolution.Some? then
      && 0 < call.resolution.value.finished <= |s.results|
      && call.resolution.value.value == s.results[call.resolution.value.finished - 1]
      && (Fresh(call) <==> !call.whileDraining)
    else
      match s.load
      case Idle => false
      case Fetching(loaded) => !call.whileDraining
          && (if i < loaded then call.begunBefore < s.begun else call.begunBefore == s.begun)
      case Draining => if call.whileDraining then call.begunBefore == s.begun else call.begunBefore < s.begun
  }

  ghost predicate Invariant(s: State) {
    && s.revision == |s.calls|
    && s.begun == |s.results| + (if s.load.Fetching? then 1 else 0)
    && (s.load.Fetching? ==> s.load.loaded <= s.revision && s.begun <= s.load.loaded)
    && (s.load.Draining? ==> s.results != [])
    && s.begun <= |s.calls|
    && forall i :: 0 <= i < |s.calls| ==> CallFits(s, i)
  }

  lemma StepKeepsInvariant(s: State, event: Event)
    requires Invariant(s) && Enabled(s, event)
    ensures Invariant(Step(s, event))
  {
    var t := Step(s, event);
    forall i | 0 <= i < |t.calls| ensures CallFits(t, i) {
      if i < |s.calls| { assert CallFits(s, i); }
    }
  }

  ghost predicate Feasible(s: State, events: seq<Event>)
    decreases |events|
  {
    events == [] || (Enabled(s, events[0]) && Feasible(Step(s, events[0]), events[1..]))
  }

  ghost function Run(s: State, events: seq<Event>): State
    requires Feasible(s, events)
    decreases |events|
  {
    if events == [] then s else Run(Step(s, events[0]), events[1..])
  }

  lemma {:induction false} RunKeepsInvariant(s: State, events: seq<Event>)
    requires Feasible(s, events) && Invariant(s)
    ensures Invariant(Run(s, events))
    decreases |events|
  {
    hide Invariant, Step, Enabled;
    if events != [] {
      StepKeepsInvariant(s, events[0]);
      RunKeepsInvariant(Step(s, events[0]), events[1..]);
    }
  }

  /**
   In every run at most one fetch is under way, so results are applied in the order in which the fetches began; there
   are never more fetches than calls; and nobody waits for an idle loader.
   */
  lemma OneFetchAtATime(events: seq<Event>)
    requires Feasible(START, events)
    ensures var s := Run(START, events);
            && |s.results| <= s.begun <= |s.results| + 1
            && (s.begun == |s.results| + 1 <==> s.load.Fetching?)
            && s.begun <= |s.calls|
            && (s.load.Idle? ==> forall i :: 0 <= i < |s.calls| ==> s.calls[i].resolution.Some?)
  {
    RunKeepsInvariant(START, events);
    var s := Run(START, events);
    forall i | s.load.Idle? && 0 <= i < |s.calls| ensures s.calls[i].resolution.Some? {
      assert CallFits(s, i);
    }
  }

  /**
   Freshness: a resolved call has the result of the last fetch finished by then, and a fetch that began at or after the
   call is among the finished ones exactly when the call was not made between the end of the loop and the clearing.
   */
  lemma FreshExactlyOutsideTheGap(events: seq<Event>, i: nat)
    requires Feasible(START, events)
    requires i < |Run(START, events).calls| && Run(START, events).calls[i].resolution.Some?
    ensures var s := Run(START, events);
            var resolution := s.calls[i].resolution.value;
            && 0 < resolution.finished <= |s.results| && resolution.value == s.results[resolution.finished - 1]
            && (Fresh(s.calls[i]) <==> !s.calls[i].whileDraining)
  {
    RunKeepsInvariant(START, events);
    assert CallFits(Run(START, events), i);
  }

  /** What still has to happen, without another call, until the loader is idle. */
  function Remaining(s: State, outcome: Option<Value>): seq<Event> {
    match s.load
    case Idle => []
    case Draining => [Cleared]
    case Fetching(loaded) =>
      if loaded == s.revision then [FetchSettled(outcome), Cleared]
      else [FetchSettled(outcome), FetchSettled(outcome), Cleared]
  }

  /**
   Nobody waits for ever: from every reachable state at most two settled fetches, with any outcome, and the clearing
   answer every call made so far; the loader is idle again, and the next call begins a fetch of its own at once.
   */
  lemma TwoFetchesAnswerEveryCall(events: seq<Event>, outcome: Option<Value>)
    requires Feasible(START, events)
    ensures var s := Run(START, events);
            && Feasible(s, Remaining(s, outcome))
            && var t := Run(s, Remaining(s, outcome));
               && t.load.Idle? && |t.calls| == |s.calls|
               && (forall i :: 0 <= i < |t.calls| ==> t.calls[i].resolution.Some?)
               && Step(t, Called).load.Fetching? && Step(t, Called).begun == t.begun + 1
               && Step(t, Called).calls[|s.calls|] == Call(t.begun, false, None)
  {
    var s := Run(START, events);
    RunKeepsInvariant(START, events);
    RemainingRun(s, outcome);
    var t := Run(s, Remaining(s, outcome));
    RunKeepsInvariant(s, Remaining(s, outcome));
    forall i | 0 <= i < |t.calls| ensures t.calls[i].resolution.Some? {
      assert CallFits(t, i);
    }
  }

  lemma {:induction false} RemainingRun(s: State, outcome: Option<Value>)
    requires Invariant(s)
    ensures Feasible(s, Remaining(s, outcome))
    ensures var t := Run(s, Remaining(s, outcome)); t.load.Idle? && |t.calls| == |s.calls|
    decreases |Remaining(s, outcome)|
  {
    var rest := Remaining(s, outcome);
    if rest != [] {
      StepKeepsInvariant(s, rest[0]);
      assert rest[1..] == Remaining(Step(s, rest[0]), outcome);
      hide Invariant;
      RemainingRun(Step(s, rest[0]), outcome);
    }
  }

  /** A concrete run with a stale call: the second call meets the draining slot and gets the first call's result. */
  lemma CallInTheGapIsStale(outcome: Option<Value>)
    ensures var s1 := Step(Step(START, Called), FetchSettled(outcome));
            var s := Step(Step(s1, Called), Cleared);
            s.begun == 1 && |s.calls| == 2 && s.calls[1].resolution == Some(Resolution(1, outcome))
                && !Fresh(s.calls[1])
  {
    var s1 := Step(Step(START, Called), FetchSettled(outcome));
    assert s1 == State(1, Draining, 1, [outcome], [Call(0, false, None)]);
    assert Step(s1, Called).calls == [Call(0, false, None), Call(1, true, None)];
  }

  /**
   Treating the end of the loop and the clearing as one step, as if no call fell between them, every call is fresh.
   */
  ghost predicate NoCallInTheGap(s: State, events: seq<Event>)
    requires Feasible(s, events)
    decreases |events|
  {
    events == [] || ((s.load.Draining? ==> !events[0].Called?) && NoCallInTheGap(Step(s, events[0]), events[1..]))
  }

  lemma {:induction false} NoGapNoDrainingCall(s: State, events: seq<Event>)
    requires Feasible(s, events) && NoCallInTheGap(s, events)
    requires forall i :: 0 <= i < |s.calls| ==> !s.calls[i].whileDraining
    ensures forall i :: 0 <= i < |Run(s, events).calls| ==> !Run(s, events).calls[i].whileDraining
    decreases |events|
  {
    if events != [] {
      NoGapNoDrainingCall(Step(s, events[0]), events[1..]);
    }
  }

  lemma EveryCallIsFresh(events: seq<Event>)
    requires Feasible(START, events) && NoCallInTheGap(START, events)
    ensures forall i :: 0 <= i < |Run(START, events).calls| && Run(START, events).calls[i].resolution.Some? ==>
              Fresh(Run(START, events).calls[i])
  {
    NoGapNoDrainingCall(START, events);
    forall i | 0 <= i < |Run(START, events).calls| && Run(START, events).calls[i].resolution.Some?
      ensures Fresh(Run(START, events).calls[i])
    {
      FreshExactlyOutsideTheGap(events, i);
    }
  }
}
