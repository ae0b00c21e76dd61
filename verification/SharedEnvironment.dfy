/**
 `index.js` of the platform-management plugin: the proxy variables of the process follow a routing state file and are
 put back on disposal, and shells started by agents get an environment of their own.
 */
module SharedEnvironment {
  import opened Text
  import opened Wrappers

  /** The environment variables the source names, and all others. */
  datatype Variable =
    | HTTP_PROXY | HTTPS_PROXY | http_proxy | https_proxy | NO_PROXY | no_proxy | ALL_PROXY | all_proxy
    | DSH_SHELL | DSH_PLATFORM_AGENT_PROXY_URL | OtherVariable(name: string)

  type Environment = map<Variable, string>

  const CONNECTION_PROXY_KEYS: seq<Variable> := [HTTP_PROXY, HTTPS_PROXY, http_proxy, https_proxy, ALL_PROXY, all_proxy]
  const SCHEME_PROXY_KEYS: seq<Variable> := [HTTP_PROXY, HTTPS_PROXY, http_proxy, https_proxy]
  const PROXY_KEYS: seq<Variable> :=
      [HTTP_PROXY, HTTPS_PROXY, http_proxy, https_proxy, NO_PROXY, no_proxy, ALL_PROXY, all_proxy]
  const SHARED_DSH_PROXY_URL: string := "http://127.0.0.1:17898"

  /**
   A readable routing state; `scopeProxy` is `environment.allProxy === 'scope-proxy'`. A missing list is an empty one,
   and None is a value that cannot be spread into a list, so that synchronizing throws.
   */
  datatype NetworkState = NetworkState(enabled: bool, dshCore: bool, dshPlugins: bool, agentNetwork: bool,
                                       noProxySystem: Option<seq<string>>, noProxyUser: Option<seq<string>>,
                                       scopeProxy: bool)

  /** Both lists can be spread. */
  predicate Complete(state: NetworkState) {
    state.noProxySystem.Some? && state.noProxyUser.Some?
  }

  predicate SharedDshProxyEnabled(state: NetworkState) {
    state.enabled && (state.dshCore || state.dshPlugins)
  }

  function NoProxyList(state: NetworkState): string
    requires Complete(state)
  {
    Join(Dedup(state.noProxySystem.value + state.noProxyUser.value), ",")
  }

  ghost function KeySet(keys: seq<Variable>): set<Variable> {
    set key | key in keys
  }

  /** One of the eight variables, that is of PROXY_KEYS. */
  ghost predicate IsProxyKey(key: Variable) {
    !key.DSH_SHELL? && !key.DSH_PLATFORM_AGENT_PROXY_URL? && !key.OtherVariable?
  }

  lemma ProxyKeysAreEight()
    ensures forall key :: key in PROXY_KEYS <==> IsProxyKey(key)
  {
    assert PROXY_KEYS[..4] == [HTTP_PROXY, HTTPS_PROXY, http_proxy, https_proxy];
    assert PROXY_KEYS[4..] == [NO_PROXY, no_proxy, ALL_PROXY, all_proxy];
    assert forall key :: IsProxyKey(key) ==> key in PROXY_KEYS[..4] || key in PROXY_KEYS[4..];
  }

  /** The values that a complete state gives to the eight proxy variables; the others of the eight are absent. */
  ghost function ProxyValues(state: NetworkState): Environment
    requires Complete(state)
  {
    var noProxy := map[NO_PROXY := NoProxyList(state), no_proxy := NoProxyList(state)];
    if !SharedDshProxyEnabled(state) then noProxy
    else
      noProxy
      + (map key | key in SCHEME_PROXY_KEYS :: SHARED_DSH_PROXY_URL)
      + (if state.scopeProxy then map[ALL_PROXY := SHARED_DSH_PROXY_URL, all_proxy := SHARED_DSH_PROXY_URL] else map[])
  }

  ghost function Others(environment: Environment): Environment {
    map key | key in environment && !IsProxyKey(key) :: environment[key]
  }

  ghost function ProxyPart(environment: Environment): Environment {
    map key | key in environment && IsProxyKey(key) :: environment[key]
  }

  ghost function Synchronized(environment: Environment, state: Option<NetworkState>): Environment {
    match state
    case None => environment
    case Some(readable) =>
      if Complete(readable) then Others(environment) + ProxyValues(readable)
      else environment - KeySet(CONNECTION_PROXY_KEYS)
  }

  class EnvironmentWatcher {
    var environment: Environment
    var original: Environment

    /**
     watchSharedDshEnvironment: remembers the eight variables, then synchronizes once. When that throws, so does
     applying the plugin, and nobody gets the disposer.
     */
    constructor (environment: Environment, state: Option<NetworkState>)
      ensures this.environment == Synchronized(environment, state)
      ensures original == ProxyPart(environment)
    {
      this.environment := environment;
      original := map[];
      new;
      for k := 0 to |PROXY_KEYS|
        invariant this.environment == environment
        invariant original == map key | key in environment && key in PROXY_KEYS[..k] :: environment[key]
      {
        var key := PROXY_KEYS[k];
        if key in this.environment { original := original[key := this.environment[key]]; }
        assert PROXY_KEYS[..k + 1] == PROXY_KEYS[..k] + [key];
      }
      assert PROXY_KEYS[..|PROXY_KEYS|] == PROXY_KEYS;
      ProxyKeysAreEight();
      var raised := Synchronize(state);
    }

    method DeleteKeys(keys: seq<Variable>)
      modifies this`environment
      ensures environment == old(environment) - KeySet(keys)
    {
      for k := 0 to |keys|
        invariant environment == old(environment) - KeySet(keys[..k])
      {
        environment := environment - {keys[k]};
        assert keys[..k + 1] == keys[..k] + [keys[k]];
      }
      assert keys[..|keys|] == keys;
    }

    method AssignKeys(keys: seq<Variable>, value: string)
      modifies this`environment
      ensures environment == old(environment) + map key | key in keys :: value
    {
      for k := 0 to |keys|
        invariant environment == old(environment) + map key | key in keys[..k] :: value
      {
        environment := environment[keys[k] := value];
        assert keys[..k + 1] == keys[..k] + [keys[k]];
      }
      assert keys[..|keys|] == keys;
    }

    /** synchronizeSharedDshEnvironment; it raises when a list cannot be spread, after six of the variables are gone. */
    method Synchronize(state: Option<NetworkState>) returns (raised: bool)
      modifies this`environment
      ensures environment == Synchronized(old(environment), state)
      ensures raised <==> state.Some? && !Complete(state.value)
    {
      hide Join, Dedup, KeySet, Others;
      raised := false;
      if state.None? { return; }
      DeleteKeys(CONNECTION_PROXY_KEYS);
      if state.value.noProxySystem.None? || state.value.noProxyUser.None? { return true; }
      var noProxy := Join(Dedup(state.value.noProxySystem.value + state.value.noProxyUser.value), ",");
      environment := environment[NO_PROXY := noProxy];
      environment := environment[no_proxy := noProxy];
      OnlyNoProxyLeft(old(environment), noProxy);
      ghost var others := Others(old(environment));
      ghost var plain := map[NO_PROXY := noProxy, no_proxy := noProxy];
      if SharedDshProxyEnabled(state.value) {
        AssignKeys(SCHEME_PROXY_KEYS, SHARED_DSH_PROXY_URL);
        ghost var schemes := map key | key in SCHEME_PROXY_KEYS :: SHARED_DSH_PROXY_URL;
        ghost var all: Environment := map[];
        if state.value.scopeProxy {
          TwoMore(environment, ALL_PROXY, all_proxy, SHARED_DSH_PROXY_URL);
          all := map[ALL_PROXY := SHARED_DSH_PROXY_URL, all_proxy := SHARED_DSH_PROXY_URL];
          environment := environment[ALL_PROXY := SHARED_DSH_PROXY_URL];
          environment := environment[all_proxy := SHARED_DSH_PROXY_URL];
        }
        FourParts(others, plain, schemes, all);
      }
    }

    /** The disposer: every one of the eight variables gets its original value or is deleted. */
    method Dispose()
      modifies this`environment
      ensures environment == Restored(old(environment), original)
    {
      for k := 0 to |PROXY_KEYS|
        invariant environment == PutBack(old(environment), original, PROXY_KEYS[..k])
      {
        var key := PROXY_KEYS[k];
        PutBackOne(old(environment), original, PROXY_KEYS[..k], key);
        environment := if key in original then environment[key := original[key]] else environment - {key};
        assert PROXY_KEYS[..k + 1] == PROXY_KEYS[..k] + [key];
      }
      assert PROXY_KEYS[..|PROXY_KEYS|] == PROXY_KEYS;
      ProxyKeysAreEight();
    }
  }

  lemma OnlyNoProxyLeft(environment: Environment, noProxy: string)
    ensures (environment - KeySet(CONNECTION_PROXY_KEYS))[NO_PROXY := noProxy][no_proxy := noProxy]
            == Others(environment) + map[NO_PROXY := noProxy, no_proxy := noProxy]
  {
    ProxyKeysAreEight();
    assert KeySet(PROXY_KEYS) == KeySet(CONNECTION_PROXY_KEYS) + {NO_PROXY, no_proxy};
  }

  lemma TwoMore(environment: Environment, a: Variable, b: Variable, value: string)
    ensures environment[a := value][b := value] == environment + map[a := value, b := value]
  {
  }

  lemma FourParts(a: Environment, b: Environment, c: Environment, d: Environment)
    ensures a + b + c + d == a + (b + c + d)
    ensures a + b + c == a + b + c + map[]
  {
  }

  ghost function PutBack(environment: Environment, original: Environment, keys: seq<Variable>): Environment {
    (environment - KeySet(keys)) + map key | key in original && key in keys :: original[key]
  }

  lemma PutBackOne(environment: Environment, original: Environment, keys: seq<Variable>, key: Variable)
    ensures PutBack(environment, original, keys + [key])
            == if key in original then PutBack(environment, original, keys)[key := original[key]]
               else PutBack(environment, original, keys) - {key}
  {
  }

  ghost function Restored(environment: Environment, original: Environment): Environment {
    Others(environment) + ProxyPart(original)
  }

  /** What happens while the watcher lives: the file changes, or other code sets or deletes one of its own variables. */
  datatype Event =
    | FileChanged(state: Option<NetworkState>)
    | OtherSet(key: Variable, value: string)
    | OtherDelete(key: Variable)

  ghost predicate OthersOnly(events: seq<Event>) {
    forall k :: 0 <= k < |events| && !events[k].FileChanged? ==> !IsProxyKey(events[k].key)
  }

  ghost function Step(environment: Environment, event: Event): Environment {
    match event
    case FileChanged(state) => Synchronized(environment, state)
    case OtherSet(key, value) => environment[key := value]
    case OtherDelete(key) => environment - {key}
  }

  ghost function Run(environment: Environment, events: seq<Event>): Environment {
    if events == [] then environment else Step(Run(environment, events[..|events| - 1]), events[|events| - 1])
  }

  /** The same history without the watcher: only the other code's writes. */
  ghost function WritesOfOthers(environment: Environment, events: seq<Event>): Environment {
    if events == [] then environment
    else
      var earlier := WritesOfOthers(environment, events[..|events| - 1]);
      if events[|events| - 1].FileChanged? then earlier else Step(earlier, events[|events| - 1])
  }

  /** The last state that could be read, starting from `first`. */
  ghost function LastReadable(first: Option<NetworkState>, events: seq<Event>): Option<NetworkState> {
    if events == [] then first
    else
      var last := events[|events| - 1];
      if last.FileChanged? && last.state.Some? then last.state else LastReadable(first, events[..|events| - 1])
  }

  /** The last complete state, starting from `first`. */
  ghost function LastComplete(first: Option<NetworkState>, events: seq<Event>): Option<NetworkState> {
    if events == [] then if first.Some? && Complete(first.value) then first else None
    else
      var last := events[|events| - 1];
      if last.FileChanged? && last.state.Some? && Complete(last.state.value) then last.state
      else LastComplete(first, events[..|events| - 1])
  }

  /** What the eight variables are given the last complete state and the last readable one. */
  ghost function ExpectedProxyPart(start: Environment, complete: Option<NetworkState>,
      readable: Option<NetworkState>): Environment
    requires complete.Some? ==> Complete(complete.value)
  {
    var values := if complete.Some? then ProxyValues(complete.value) else ProxyPart(start);
    if readable.Some? && !Complete(readable.value) then values - KeySet(CONNECTION_PROXY_KEYS) else values
  }

  lemma ProxyValuesAreProxyKeys(state: NetworkState)
    requires Complete(state)
    ensures forall key :: key in ProxyValues(state) ==> IsProxyKey(key)
  {
    ProxyKeysAreEight();
    assert PROXY_KEYS[..4] == SCHEME_PROXY_KEYS;
  }

  lemma SynchronizedParts(environment: Environment, state: Option<NetworkState>)
    ensures var t := Synchronized(environment, state);
            && Others(t) == Others(environment)
            && ProxyPart(t) ==
                 if state.None? then ProxyPart(environment)
                 else if Complete(state.value) then ProxyValues(state.value)
                 else ProxyPart(environment) - KeySet(CONNECTION_PROXY_KEYS)
  {
    hide ProxyValues;
    if state.Some? && Complete(state.value) { ProxyValuesAreProxyKeys(state.value); }
  }

  lemma {:induction false} LastCompleteIsComplete(first: Option<NetworkState>, events: seq<Event>)
    ensures var last := LastComplete(first, events); last.Some? ==> Complete(last.value)
    ensures var readable := LastReadable(first, events);
            readable.Some? && Complete(readable.value) ==> LastComplete(first, events) == readable
  {
    if events != [] { LastCompleteIsComplete(first, events[..|events| - 1]); }
  }

  /** Setting or deleting another variable commutes with looking at the others only. */
  lemma OthersOfWrite(environment: Environment, event: Event)
    requires !event.FileChanged? && !IsProxyKey(event.key)
    ensures Others(Step(environment, event)) == Step(Others(environment), event)
  {
  }

  lemma OtherWriteParts(environment: Environment, other: Environment, event: Event)
    requires !event.FileChanged? && !IsProxyKey(event.key)
    ensures ProxyPart(Step(environment, event)) == ProxyPart(environment)
    ensures Others(other) == Others(environment) ==> Others(Step(other, event)) == Others(Step(environment, event))
  {
    OthersOfWrite(environment, event);
    OthersOfWrite(other, event);
  }

  /**
   After any sequence of file contents and of other writes, the eight variables depend only on the last readable state,
   or are the original ones when none was readable, as long as that state is complete; if it is not, the two NO_PROXY
   variables are still those of the last complete state and the other six are gone. All other variables are what the
   other writes made them.
   */
  lemma {:induction false} ProxyVariablesFollowTheLastReadableState(
    start: Environment, first: Option<NetworkState>, events: seq<Event>)
    requires OthersOnly(events)
    ensures LastComplete(first, events).Some? ==> Complete(LastComplete(first, events).value)
    ensures var environment := Run(Synchronized(start, first), events);
            var readable := LastReadable(first, events);
            && ProxyPart(environment) == ExpectedProxyPart(start, LastComplete(first, events), readable)
            && (readable.Some? && Complete(readable.value) ==> ProxyPart(environment) == ProxyValues(readable.value))
            && Others(environment) == Others(WritesOfOthers(start, events))
  {
    hide ProxyValues, ProxyPart, Others;
    LastCompleteIsComplete(first, events);
    if events == [] {
      SynchronizedParts(start, first);
      assert first.Some? && !Complete(first.value) ==> LastComplete(first, events).None?;
    } else {
      var earlier, event := events[..|events| - 1], events[|events| - 1];
      ProxyVariablesFollowTheLastReadableState(start, first, earlier);
      var environment := Run(Synchronized(start, first), earlier);
      if event.FileChanged? {
        SynchronizedParts(environment, event.state);
      } else {
        OtherWriteParts(environment, WritesOfOthers(start, earlier), event);
      }
    }
  }

  function Lookup<V>(environment: map<Variable, V>, key: Variable): Option<V> {
    if key in environment then Some(environment[key]) else None
  }

  lemma SchemeKeysAreFour()
    ensures forall key :: key in SCHEME_PROXY_KEYS <==>
                key.HTTP_PROXY? || key.HTTPS_PROXY? || key.http_proxy? || key.https_proxy?
  {
  }

  lemma ValueOf(state: NetworkState, key: Variable)
    requires Complete(state) && IsProxyKey(key)
    ensures Lookup(ProxyValues(state), key) ==
            if key.NO_PROXY? || key.no_proxy? then Some(NoProxyList(state))
            else if !(state.enabled && (state.dshCore || state.dshPlugins)) then None
            else if (key.ALL_PROXY? || key.all_proxy?) && !state.scopeProxy then None
            else Some("http://127.0.0.1:17898")
  {
    SchemeKeysAreFour();
    hide NoProxyList;
  }

  /**
   Variable by variable, after any history whose last readable state is a complete one: the four scheme variables are
   set exactly when the proxy is enabled for the core or for plugins, the two for all schemes exactly when it also asks
   for that, each to the shared proxy; both spellings of NO_PROXY always hold the two lists without duplicates; and
   every other variable is what other code made it.
   */
  lemma EachVariableExactlyWhen(
    start: Environment, first: Option<NetworkState>, events: seq<Event>, state: NetworkState, key: Variable)
    requires OthersOnly(events) && LastReadable(first, events) == Some(state) && Complete(state)
    ensures Lookup(Run(Synchronized(start, first), events), key) ==
            if !IsProxyKey(key) then Lookup(WritesOfOthers(start, events), key)
            else if key.NO_PROXY? || key.no_proxy? then Some(NoProxyList(state))
            else if !(state.enabled && (state.dshCore || state.dshPlugins)) then None
            else if (key.ALL_PROXY? || key.all_proxy?) && !state.scopeProxy then None
            else Some("http://127.0.0.1:17898")
  {
    hide Run, NoProxyList, WritesOfOthers, ProxyValues, ExpectedProxyPart, LastReadable, LastComplete, Synchronized;
    ProxyVariablesFollowTheLastReadableState(start, first, events);
    if IsProxyKey(key) {
      ValueOf(state, key);
      LookupInParts(Run(Synchronized(start, first), events), key);
    } else {
      LookupInParts(Run(Synchronized(start, first), events), key);
      LookupInParts(WritesOfOthers(start, events), key);
    }
  }

  lemma LookupInParts(environment: Environment, key: Variable)
    ensures Lookup(environment, key)
        == if IsProxyKey(key) then Lookup(ProxyPart(environment), key) else Lookup(Others(environment), key)
  {
  }

  /**
   Disposal puts the eight variables back exactly, present or absent, and leaves the others as the other code made them.
   */
  lemma DisposalRestoresTheOriginal(start: Environment, first: Option<NetworkState>, events: seq<Event>)
    requires OthersOnly(events)
    ensures var restored := Restored(Run(Synchronized(start, first), events), ProxyPart(start));
            ProxyPart(restored) == ProxyPart(start) && Others(restored) == Others(WritesOfOthers(start, events))
  {
    hide ProxyValues, ProxyPart, Others, Restored, Run;
    ProxyVariablesFollowTheLastReadableState(start, first, events);
    RestoredParts(Run(Synchronized(start, first), events), start);
  }

  lemma RestoredParts(environment: Environment, start: Environment)
    ensures ProxyPart(Restored(environment, ProxyPart(start))) == ProxyPart(start)
    ensures Others(Restored(environment, ProxyPart(start))) == Others(environment)
  {
  }

  /** The environment of a subprocess; a variable bound to None is passed as undefined, so the child does not get it. */
  type SpecEnvironment = map<Variable, Option<string>>

  /** The proxy variables that an agent's shell gets from this process, None when no agent proxy is configured. */
  function AgentNetworkEnvironment(environment: Environment): Option<Environment> {
    if DSH_PLATFORM_AGENT_PROXY_URL !in environment || environment[DSH_PLATFORM_AGENT_PROXY_URL] == "" then None
    else
      var proxy := environment[DSH_PLATFORM_AGENT_PROXY_URL];
      var noProxy := if NO_PROXY in environment then environment[NO_PROXY]
                     else if no_proxy in environment then environment[no_proxy] else "";
      var all := ALL_PROXY in environment || all_proxy in environment;
      Some(map[HTTP_PROXY := proxy, HTTPS_PROXY := proxy, http_proxy := proxy, https_proxy := proxy,
               NO_PROXY := noProxy, no_proxy := noProxy]
           + if all then map[ALL_PROXY := proxy, all_proxy := proxy] else map[])
  }

  function Undefined(): SpecEnvironment {
    map key | key in PROXY_KEYS :: None
  }

  function Defined(environment: Environment): SpecEnvironment {
    map key | key in environment :: Some(environment[key])
  }

  /** managedSubprocessSpec, on the environment of a spec that has one. */
  function ManagedSpec(spec: SpecEnvironment, environment: Environment, state: Option<NetworkState>): SpecEnvironment {
    if DSH_SHELL !in spec || spec[DSH_SHELL] != Some("1") then spec
    else
      var env := spec - (set key | key in PROXY_KEYS);
      if state.Some? && (!state.value.enabled || !state.value.agentNetwork) then env + Undefined()
      else
        match AgentNetworkEnvironment(environment)
        case None => spec
        case Some(proxy) => env + Defined(proxy)
  }

  lemma AgentKeysAreProxyKeys(environment: Environment)
    ensures AgentNetworkEnvironment(environment).Some? ==>
              forall key :: key in AgentNetworkEnvironment(environment).value ==> IsProxyKey(key)
  {
    ProxyKeysAreEight();
  }

  /**
   Rewriting a spec touches only the eight variables and only of an agent's shell; what the eight become does not depend
   on what they were, unless the spec is left alone; and rewriting twice is rewriting once, so nested wrappers are
   harmless.
   */
  lemma ManagedSpecMeaning(spec: SpecEnvironment, environment: Environment, state: Option<NetworkState>)
    ensures var managed := ManagedSpec(spec, environment, state);
            && managed - KeySet(PROXY_KEYS) == spec - KeySet(PROXY_KEYS)
            && ManagedSpec(managed, environment, state) == managed
            && (managed != spec ==> forall other: SpecEnvironment ::
                  other - KeySet(PROXY_KEYS) == spec - KeySet(PROXY_KEYS) ==>
                      ManagedSpec(other, environment, state) == managed)
  {
    AgentKeysAreProxyKeys(environment);
    ProxyKeysAreEight();
    var managed := ManagedSpec(spec, environment, state);
    forall other: SpecEnvironment | managed != spec && other - KeySet(PROXY_KEYS) == spec - KeySet(PROXY_KEYS)
      ensures ManagedSpec(other, environment, state) == managed
    {
      assert DSH_SHELL in other - KeySet(PROXY_KEYS);
    }
    assert DSH_SHELL in spec ==> DSH_SHELL in managed - KeySet(PROXY_KEYS);
  }

  /**
   What an agent's shell gets of one of the eight variables: none of them when a readable state switches the agents'
   network off; otherwise the agents' own proxy, if one is configured, under the exceptions of this process, and for all
   schemes exactly when this process has such a variable; without a proxy it keeps what it had, as other shells do.
   */
  lemma AgentShellVariables(spec: SpecEnvironment, environment: Environment, state: Option<NetworkState>, key: Variable)
    requires IsProxyKey(key)
    ensures Lookup(ManagedSpec(spec, environment, state), key) ==
            if Lookup(spec, DSH_SHELL) != Some(Some("1")) then Lookup(spec, key)
            else if state.Some? && !(state.value.enabled && state.value.agentNetwork) then Some(None)
            else if Lookup(environment, DSH_PLATFORM_AGENT_PROXY_URL) in {None, Some("")} then Lookup(spec, key)
            else if key.NO_PROXY? || key.no_proxy? then
              Some(Some(Lookup(environment, NO_PROXY).GetOr(Lookup(environment, no_proxy).GetOr(""))))
            else if (key.ALL_PROXY? || key.all_proxy?) && ALL_PROXY !in environment && all_proxy !in environment
            then None
            else Some(Lookup(environment, DSH_PLATFORM_AGENT_PROXY_URL))
  {
    ProxyKeysAreEight();
    AgentValueOf(environment, key);
    AgentKeysAreProxyKeys(environment);
    hide AgentNetworkEnvironment;
    assert key in PROXY_KEYS;
  }

  lemma AgentValueOf(environment: Environment, key: Variable)
    requires IsProxyKey(key)
    ensures var agent := AgentNetworkEnvironment(environment);
            var proxy := Lookup(environment, DSH_PLATFORM_AGENT_PROXY_URL);
            if proxy in {None, Some("")} then agent == None
            else
              && agent.Some?
              && Lookup(agent.value, key) ==
                   if key.NO_PROXY? || key.no_proxy? then
                     Some(Lookup(environment, NO_PROXY).GetOr(Lookup(environment, no_proxy).GetOr("")))
                   else if (key.ALL_PROXY? || key.all_proxy?) && ALL_PROXY !in environment && all_proxy !in environment
                   then None
                   else proxy
  {
  }

  /** A value of service.spawn: the platform's function, or the managed wrapper of one plugin instance. */
  datatype Spawn = Platform | Managed(instance: nat, inner: Spawn)

  /** The wrap of apply, and the unwrap of its disposer, which acts only when its own wrapper is still on top. */
  function Wrapped(slot: Spawn, instance: nat): Spawn {
    Managed(instance, slot)
  }

  function Unwrapped(slot: Spawn, instance: nat): Spawn {
    if slot.Managed? && slot.instance == instance then slot.inner else slot
  }

  datatype Lifetime = Applied(instance: nat) | Disposed(instance: nat)

  function Next(slot: Spawn, event: Lifetime): Spawn {
    if event.Applied? then Wrapped(slot, event.instance) else Unwrapped(slot, event.instance)
  }

  function SlotAfter(slot: Spawn, history: seq<Lifetime>): Spawn
    decreases |history|
  {
    if history == [] then slot else SlotAfter(Next(slot, history[0]), history[1..])
  }

  predicate Contains(slot: Spawn, instance: nat) {
    slot.Managed? && (slot.instance == instance || Contains(slot.inner, instance))
  }

  /** Every instance is disposed while it is the innermost one alive: the history is a sequence of nested lifetimes. */
  datatype Nesting = Nesting(instance: nat, inside: seq<Nesting>)

  function Played(nestings: seq<Nesting>): seq<Lifetime> {
    if nestings == [] then []
    else
      [Applied(nestings[0].instance)] + Played(nestings[0].inside) + [Disposed(nestings[0].instance)]
      + Played(nestings[1..])
  }

  lemma {:induction false} SlotAfterConcat(slot: Spawn, a: seq<Lifetime>, b: seq<Lifetime>)
    ensures SlotAfter(slot, a + b) == SlotAfter(SlotAfter(slot, a), b)
    decreases |a|
  {
    if a == [] {
      assert a + b == b;
    } else {
      assert (a + b)[0] == a[0] && (a + b)[1..] == a[1..] + b;
      SlotAfterConcat(Next(slot, a[0]), a[1..], b);
    }
  }

  /** Nested plugin lifetimes leave service.spawn as they found it. */
  lemma {:induction false} NestedLifetimesRestoreTheService(slot: Spawn, nestings: seq<Nesting>)
    ensures SlotAfter(slot, Played(nestings)) == slot
    decreases nestings
  {
    if nestings != [] {
      var first := nestings[0];
      var wrapped := Wrapped(slot, first.instance);
      NestedLifetimesRestoreTheService(wrapped, first.inside);
      NestedLifetimesRestoreTheService(slot, nestings[1..]);
      SlotAfterConcat(wrapped, [], Played(first.inside));
      assert SlotAfter(slot, [Applied(first.instance)]) == SlotAfter(wrapped, []);
      assert SlotAfter(wrapped, [Disposed(first.instance)]) == SlotAfter(slot, []);
      SlotAfterConcat(slot, [Applied(first.instance)], Played(first.inside));
      SlotAfterConcat(slot, [Applied(first.instance)] + Played(first.inside), [Disposed(first.instance)]);
      SlotAfterConcat(slot, [Applied(first.instance)] + Played(first.inside) + [Disposed(first.instance)],
          Played(nestings[1..]));
    }
  }

  /** Every disposal finds its own wrapper on top. */
  predicate DisposedOnTop(slot: Spawn, history: seq<Lifetime>)
    decreases |history|
  {
    history == []
    || (&& (history[0].Disposed? ==> slot.Managed? && slot.instance == history[0].instance)
        && DisposedOnTop(Next(slot, history[0]), history[1..]))
  }

  function Depth(slot: Spawn): nat {
    if slot.Managed? then 1 + Depth(slot.inner) else 0
  }

  /** How many more instances a history applies than it disposes of. */
  function Balance(history: seq<Lifetime>): int {
    if history == [] then 0 else (if history[0].Applied? then 1 else -1) + Balance(history[1..])
  }

  lemma {:induction false} DepthCountsMissedDisposals(slot: Spawn, history: seq<Lifetime>)
    ensures Depth(SlotAfter(slot, history)) >= Depth(slot) + Balance(history)
    ensures Depth(SlotAfter(slot, history)) == Depth(slot) + Balance(history) <==> DisposedOnTop(slot, history)
    decreases |history|
  {
    if history != [] { DepthCountsMissedDisposals(Next(slot, history[0]), history[1..]); }
  }

  /** The slot without its `n` topmost wrappers. */
  function Peeled(slot: Spawn, n: nat): Spawn
    requires n <= Depth(slot)
  {
    if n == 0 then slot else Peeled(slot.inner, n - 1)
  }

  /** What lay in the slot before a history of other instances lies there still, under what the history has added. */
  lemma {:induction false} OldWrappersStay(base: Spawn, slot: Spawn, history: seq<Lifetime>)
    requires Depth(base) <= Depth(slot) && Peeled(slot, Depth(slot) - Depth(base)) == base
    requires forall k :: 0 <= k < |history| ==> !Contains(base, history[k].instance)
    ensures Depth(base) <= Depth(SlotAfter(slot, history))
    ensures Peeled(SlotAfter(slot, history), Depth(SlotAfter(slot, history)) - Depth(base)) == base
    decreases |history|
  {
    if history != [] {
      assert !Contains(base, history[0].instance);
      assert forall k :: 0 <= k < |history[1..]| ==> history[1..][k] == history[k + 1];
      OldWrappersStay(base, Next(slot, history[0]), history[1..]);
    }
  }

  /**
   For any history of new instances that disposes of as many as it applies, such as one that applies and disposes of
   each once: the slot is restored if and only if every disposal finds its own wrapper on top.
   */
  lemma ServiceIsRestoredExactlyWhen(slot: Spawn, history: seq<Lifetime>)
    requires Balance(history) == 0 && forall k :: 0 <= k < |history| ==> !Contains(slot, history[k].instance)
    ensures SlotAfter(slot, history) == slot <==> DisposedOnTop(slot, history)
  {
    DepthCountsMissedDisposals(slot, history);
    OldWrappersStay(slot, slot, history);
  }

  /** The converse: a disposer that ran while its wrapper was covered has missed its only chance; the wrapper stays. */
  lemma {:induction false} CoveredWrapperStays(slot: Spawn, instance: nat, history: seq<Lifetime>)
    requires Contains(slot, instance)
    requires forall k :: 0 <= k < |history| ==> history[k].instance != instance
    ensures Contains(SlotAfter(slot, history), instance)
    decreases |history|
  {
    if history != [] {
      assert history[0].instance != instance;
      CoveredWrapperStays(Next(slot, history[0]), instance, history[1..]);
    }
  }

  /** A disposal takes its wrapper away exactly when that is on top. */
  lemma DisposalRemovesExactlyTheTop(slot: Spawn, instance: nat)
    requires Contains(slot, instance)
        && (slot.Managed? && slot.instance == instance ==> !Contains(slot.inner, instance))
    ensures Contains(Unwrapped(slot, instance), instance) <==> slot.instance != instance
  {
  }
}
