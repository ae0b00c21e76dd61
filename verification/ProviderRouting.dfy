/** How `provider-routing.js` chooses the dispatcher of a model request, and how it obtains a provider handle. */
module ProviderRouting {
  import opened Wrappers

  /** Any value that is passed to an iterator, returned by it or thrown. */
  type Value = string

  /** The routing state file, when it can be read; each flag is the outcome of the source's `=== true` test. */
  datatype RoutingState = RoutingState(enabled: bool, dshCore: bool, dshPlugins: bool, agentNetwork: bool,
                                       providers: Option<map<string, bool>>, providerDefault: bool)

  datatype Capability = SharedDsh | PerProvider

  datatype Dispatcher = Direct | Shared | Agent | ForHandle(handle: string)

  /** The context of a routed request; an owned dispatcher must be closed by the iterator that uses it. */
  datatype Route = Route(dispatcher: Dispatcher, owned: bool)

  /**
   The policy of a provider, or else the default. Every object has a property `constructor`, the only inherited one that
   a provider's name can have; a provider of that name does not get the default when there are policies at all.
   */
  predicate ProviderProxyEnabled(state: Option<RoutingState>, provider: string) {
    state.Some? && state.value.enabled
    && match state.value.providers
       case None => state.value.providerDefault
       case Some(policies) =>
         if provider in policies then policies[provider] else provider != "constructor" && state.value.providerDefault
  }

  predicate SharedDshProxyEnabled(state: Option<RoutingState>) {
    state.Some? && state.value.enabled && (state.value.dshCore || state.value.dshPlugins)
  }

  predicate AgentNetworkProxyEnabled(state: Option<RoutingState>) {
    state.Some? && state.value.enabled && state.value.agentNetwork
  }

  /** resolveRoute of the llm/stream hook; `issued` is the outcome of issueProviderHandle, should it be asked. */
  function ResolveRoute(state: Option<RoutingState>, provider: string, capability: Capability,
                        issued: Result<string, Value>): Result<Route, Value>
  {
    if state.Some? && !ProviderProxyEnabled(state, provider) then Ok(Route(Direct, false))
    else if capability == SharedDsh then Ok(Route(if SharedDshProxyEnabled(state) then Shared else Direct, false))
    else
      match issued
      case Ok(handle) => Ok(Route(ForHandle(handle), true))
      case Err(error) => Err(error)
  }

  /** The route of a tool execution. */
  function ToolRoute(state: Option<RoutingState>): Route {
    Route(if AgentNetworkProxyEnabled(state) then Agent else Direct, false)
  }

  /**
   Where a stream goes, over all states and capabilities: it owns its dispatcher exactly when that was made for a fresh
   handle, which is so exactly for a provider with its own routing whose policy is on, or unknown because the state
   cannot be read; it takes the shared proxy exactly when a readable state enables both the provider and the DSH scopes;
   and it fails only when a handle was needed and refused.
   */
  lemma OwnedExactlyForHandles(state: Option<RoutingState>, provider: string, capability: Capability,
                               issued: Result<string, Value>)
    ensures var route := ResolveRoute(state, provider, capability, issued);
            && (route.Ok? && route.value.owned <==>
                  capability == PerProvider && issued.Ok? && (state.Some? ==> ProviderProxyEnabled(state, provider)))
            && (route.Ok? ==> (route.value.owned <==> route.value.dispatcher.ForHandle?))
            && (route.Ok? && route.value.dispatcher.Shared? <==>
                  capability == SharedDsh && ProviderProxyEnabled(state, provider) && SharedDshProxyEnabled(state))
            && (route.Ok? ==> !route.value.dispatcher.Agent?)
            && (route.Err? ==> issued == Err(route.error) && capability == PerProvider)
  {
  }

  /**
   A provider's own policy decides its streams and nobody else's: with the proxy on, setting it to off sends them
   directly, setting it to on sends them through the proxy of their kind; every other provider is routed as before, by
   its own policy or by the default.
   */
  lemma PolicyDecidesItsProviderOnly(state: RoutingState, policies: map<string, bool>, provider: string, on: bool,
                                     other: string, capability: Capability, issued: Result<string, Value>)
    requires state.enabled && state.providers == Some(policies) && other != provider
    ensures var changed := Some(state.(providers := Some(policies[provider := on])));
            && (ResolveRoute(changed, provider, capability, issued) ==
                  if !on then Ok(Route(Direct, false))
                  else if capability == SharedDsh then
                    Ok(Route(if state.dshCore || state.dshPlugins then Shared else Direct, false))
                  else if issued.Ok? then Ok(Route(ForHandle(issued.value), true))
                  else Err(issued.error))
            && ResolveRoute(changed, other, capability, issued)
               == ResolveRoute(Some(state), other, capability, issued)
            && (other !in policies && other != "constructor" ==>
                  ResolveRoute(changed, other, capability, issued)
                  == ResolveRoute(Some(state.(providers := None)), other, capability, issued))
  {
  }

  /** Tools use the agents' proxy exactly when a readable state enables the proxy and the agents' network. */
  lemma ToolsUseTheAgentsProxyExactlyWhen(state: Option<RoutingState>)
    ensures ToolRoute(state) == Route(Agent, false)
        <==> exists readable :: state == Some(readable) && readable.enabled && readable.agentNetwork
    ensures ToolRoute(state) == Route(Agent, false) || ToolRoute(state) == Route(Direct, false)
  {
    assert state.Some? ==> state == Some(state.value);
  }

  /** Switching the proxy off sends every stream and every tool directly, whatever the policies and scopes say. */
  lemma DisabledProxyMeansDirect(state: RoutingState, provider: string, capability: Capability,
                                 issued: Result<string, Value>)
    requires !state.enabled
    ensures ResolveRoute(Some(state), provider, capability, issued) == Ok(Route(Direct, false))
    ensures ToolRoute(Some(state)) == Route(Direct, false)
  {
  }

  /** An error of the control socket; `conflict` says that its code is REVISION_CONFLICT. */
  datatype ControlError = ControlError(conflict: bool, message: Value)

  /** The two replies of one attempt: reading the configuration's revision, and asking for a handle under it. */
  datatype Attempt = Attempt(revision: Result<nat, ControlError>, handle: Result<string, ControlError>)

  function AttemptOutcome(attempt: Attempt): Result<string, ControlError> {
    match attempt.revision
    case Err(error) => Err(error)
    case Ok(_) => attempt.handle
  }

  predicate Retries(attempt: Attempt) {
    attempt.revision.Ok? && attempt.handle.Err? && attempt.handle.error.conflict
  }

  /**
   issueProviderHandle: the retry loop. `posted` lists the revisions under which a handle was asked for. The loop never
   runs to its end, so the source's last throw is not reachable.
   */
  method IssueProviderHandle(first: Attempt, second: Attempt)
    returns (result: Result<string, ControlError>, posted: seq<nat>, attempts: nat)
    ensures attempts == if Retries(first) then 2 else 1
    ensures result == AttemptOutcome(if Retries(first) then second else first)
    ensures result.Ok? ==>
              && posted != []
              && (if Retries(first) then second else first).revision == Ok(posted[|posted| - 1])
    ensures result.Err? && result.error.conflict && first.revision.Ok? && second.revision.Ok? ==>
        attempts == |posted| == 2
  {
    posted, attempts := [], 0;
    result := Err(ControlError(false, "Provider policy changed repeatedly"));
    while attempts < 2
      invariant 0 <= attempts <= 2 && (attempts > 0 ==> Retries(first))
      invariant attempts == |posted| && attempts < 2
      decreases 2 - attempts
    {
      var replies := if attempts == 0 then first else second;
      attempts := attempts + 1;
      if replies.revision.Err? { return Err(replies.revision.error), posted, attempts; }
      posted := posted + [replies.revision.value];
      if replies.handle.Ok? { return Ok(replies.handle.value), posted, attempts; }
      if !replies.handle.error.conflict || attempts > 1 { return Err(replies.handle.error), posted, attempts; }
    }
  }
}
