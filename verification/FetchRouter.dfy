/**
 `installFetchRouter` of provider-routing.js: the ownership protocol over globalThis.fetch. Installing wraps the global
 once and then only replaces the owner; the disposer of the current owner takes the wrapper away again.
 */
module FetchRouter {
  import opened Wrappers

  /** What one installer brings: its AsyncLocalStorage, its routed fetch and its default resolver, as identities. */
  datatype Installer = Installer(store: nat, routedFetch: nat, resolver: nat)

  /** A value of globalThis.fetch: the platform's function, or the wrapper of a registry. */
  datatype Fetch = Native | Wrapper(registry: nat)

  /** A registry object; `owner` is the number of the install that owns it. */
  datatype Registry = Registry(original: Fetch, owner: nat, installer: Installer)

  /** The closure an install returns. `used` records that it ran. */
  datatype Disposer = Disposer(registry: nat, used: bool)

  /**
   Both global slots, with every registry object and every disposer ever made; the k-th disposer is that of the k-th
   install.
   */
  datatype World = World(fetch: Fetch, current: Option<nat>, registries: seq<Registry>, disposers: seq<Disposer>)

  const UNTOUCHED := World(Native, None, [], [])

  predicate Linked(w: World) {
    && (w.current.Some? ==> w.current.value < |w.registries|)
    && (forall k :: 0 <= k < |w.disposers| ==> w.disposers[k].registry < |w.registries|)
  }

  function Installed(w: World, installer: Installer): World
    requires Linked(w)
  {
    var owner := |w.disposers|;
    match w.current
    case None =>
      var added := |w.registries|;
      World(Wrapper(added), Some(added), w.registries + [Registry(w.fetch, owner, installer)],
            w.disposers + [Disposer(added, false)])
    case Some(r) =>
      w.(registries := w.registries[r := w.registries[r].(owner := owner, installer := installer)],
         disposers := w.disposers + [Disposer(r, false)])
  }

  function Disposed(w: World, install: nat): World
    requires Linked(w) && install < |w.disposers|
  {
    var r := w.disposers[install].registry;
    var ran := w.(disposers := w.disposers[install := Disposer(r, true)]);
    if w.registries[r].owner != install then ran
    else ran.(fetch := if w.fetch == Wrapper(r) then w.registries[r].original else w.fetch, current := None)
  }

  class GlobalScope {
    var fetch: Fetch
    var current: Option<nat>
    var registries: seq<Registry>
    var disposers: seq<Disposer>

    ghost function Current(): World
      reads this
    {
      World(fetch, current, registries, disposers)
    }

    constructor ()
      ensures Current() == UNTOUCHED
    {
      fetch, current, registries, disposers := Native, None, [], [];
    }

    method InstallFetchRouter(installer: Installer) returns (disposer: nat)
      requires Linked(Current())
      modifies this
      ensures Current() == Installed(old(Current()), installer)
      ensures disposer == |old(disposers)|
    {
      var owner := |disposers|;
      var registry;
      if current.None? {
        registry := |registries|;
        registries := registries + [Registry(fetch, owner, installer)];
        current := Some(registry);
        fetch := Wrapper(registry);
      } else {
        registry := current.value;
        registries := registries[registry := Registry(registries[registry].original, owner, installer)];
      }
      disposers := disposers + [Disposer(registry, false)];
      return owner;
    }

    method Dispose(owner: nat)
      requires Linked(Current()) && owner < |disposers|
      modifies this
      ensures Current() == Disposed(old(Current()), owner)
    {
      var registry := disposers[owner].registry;
      disposers := disposers[owner := Disposer(registry, true)];
      if registries[registry].owner != owner { return; }
      if fetch == Wrapper(registry) { fetch := registries[registry].original; }
      current := None;
    }
  }

  datatype Action = Install(installer: Installer) | Dispose(install: nat)

  /** The assumption: a disposer runs after its install, and at most once. */
  ghost predicate Allowed(w: World, action: Action) {
    action.Dispose? ==> action.install < |w.disposers| && !w.disposers[action.install].used
  }

  ghost function Apply(w: World, action: Action): World
    requires Linked(w) && Allowed(w, action)
  {
    match action
    case Install(installer) => Installed(w, installer)
    case Dispose(install) => Disposed(w, install)
  }

  ghost predicate Feasible(w: World, history: seq<Action>)
    decreases |history|
  {
    Linked(w) && (history == [] || (Allowed(w, history[0]) && Feasible(Apply(w, history[0]), history[1..])))
  }

  /** A history of installs and at-most-once disposals. */
  ghost function Run(w: World, history: seq<Action>): World
    requires Feasible(w, history)
    decreases |history|
  {
    if history == [] then w else Run(Apply(w, history[0]), history[1..])
  }

  ghost function Installers(history: seq<Action>): seq<Installer> {
    if history == [] then []
    else (if history[0].Install? then [history[0].installer] else []) + Installers(history[1..])
  }

  /** The last installer has not disposed yet. */
  ghost predicate Active(w: World) {
    w.disposers != [] && !w.disposers[|w.disposers| - 1].used
  }

  ghost predicate Invariant(w: World) {
    && Linked(w)
    && w.fetch == (if w.current.Some? then Wrapper(w.current.value) else Native)
    && (w.current.Some? <==> Active(w))
    && (w.current.Some? ==>
          && w.registries[w.current.value].owner == |w.disposers| - 1
          && w.disposers[|w.disposers| - 1].registry == w.current.value)
    && (forall r :: 0 <= r < |w.registries| ==>
        w.registries[r].original == Native && w.registries[r].owner < |w.disposers|)
    && (forall k :: 0 <= k < |w.disposers| ==>
          !w.disposers[k].used && w.registries[w.disposers[k].registry].owner == k ==>
          k == |w.disposers| - 1)
  }

  lemma StepKeepsInvariant(w: World, action: Action)
    requires Invariant(w) && Allowed(w, action)
    ensures Invariant(Apply(w, action))
  {
    var t := Apply(w, action);
    if action.Dispose? {
      assert forall k :: 0 <= k < |t.disposers| && k != action.install ==> t.disposers[k] == w.disposers[k];
    } else {
      assert forall k :: 0 <= k < |w.disposers| ==> t.disposers[k] == w.disposers[k];
    }
  }

  /** The installers seen so far agree with the disposers, and the registry carries the last of them. */
  ghost predicate Follows(w: World, seen: seq<Installer>) {
    && Invariant(w) && |w.disposers| == |seen|
    && (w.current.Some? ==> w.registries[w.current.value].installer == seen[|seen| - 1])
  }

  lemma StepFollows(w: World, action: Action, seen: seq<Installer>)
    requires Follows(w, seen) && Allowed(w, action)
    ensures Follows(Apply(w, action), if action.Install? then seen + [action.installer] else seen)
  {
    StepKeepsInvariant(w, action);
  }

  lemma {:induction false} RunFollows(w: World, history: seq<Action>, seen: seq<Installer>)
    requires Feasible(w, history) && Follows(w, seen)
    ensures Follows(Run(w, history), seen + Installers(history))
    decreases |history|
  {
    hide Follows, Apply, Allowed, Linked;
    if history == [] {
      assert seen + [] == seen;
    } else {
      var first := if history[0].Install? then [history[0].installer] else [];
      StepFollows(w, history[0], seen);
      assert seen + [] == seen;
      RunFollows(Apply(w, history[0]), history[1..], seen + first);
      assert seen + (first + Installers(history[1..])) == seen + first + Installers(history[1..]);
    }
  }

  /**
   After any history: the global fetch is a wrapper exactly while a registry exists, which is exactly while the last
   installer has not disposed; that registry carries the last installer's store and resolver; and no saved original is a
   wrapper.
   */
  lemma RouterProtocol(history: seq<Action>)
    requires Feasible(UNTOUCHED, history)
    ensures var w := Run(UNTOUCHED, history);
            && (w.fetch.Wrapper? <==> w.current.Some?)
            && (w.current.Some? <==> Active(w))
            && (forall r :: 0 <= r < |w.registries| ==> w.registries[r].original == Native)
            && |w.disposers| == |Installers(history)|
            && (w.current.Some? ==>
                  && w.fetch == Wrapper(w.current.value) && w.current.value < |w.registries|
                  && w.registries[w.current.value].installer == Installers(history)[|Installers(history)| - 1])
    ensures Invariant(Run(UNTOUCHED, history))
  {
    RunFollows(UNTOUCHED, history, []);
    assert [] + Installers(history) == Installers(history);
  }

  /** A superseded owner's disposal changes nothing; the current owner's restores the platform's fetch. */
  lemma DisposalEffect(history: seq<Action>, install: nat)
    requires Feasible(UNTOUCHED, history) && Allowed(Run(UNTOUCHED, history), Dispose(install))
    ensures var w := Run(UNTOUCHED, history);
            && Linked(w)
            && var t := Disposed(w, install);
               if install == |w.disposers| - 1 then
                 t.fetch == Native && t.current == None && t.registries == w.registries
               else t.fetch == w.fetch && t.current == w.current && t.registries == w.registries
  {
    RouterProtocol(history);
  }

  /**
   Running a disposer again is harmless except in one case: its owner was the last of its registry and another router
   has been installed since. Then the global keeps a wrapper without a registry.
   */
  lemma RepeatedDisposal(history: seq<Action>, install: nat)
    requires Feasible(UNTOUCHED, history)
    requires install < |Run(UNTOUCHED, history).disposers| && Run(UNTOUCHED, history).disposers[install].used
    ensures var w := Run(UNTOUCHED, history);
            && Linked(w)
            && var owned := w.registries[w.disposers[install].registry].owner == install;
               && (Disposed(w, install) == w <==> w.current.None? || !owned)
               && (w.current.Some? && owned ==>
                     Disposed(w, install).fetch == Wrapper(w.current.value) && Disposed(w, install).current == None)
  {
    RouterProtocol(history);
    var w := Run(UNTOUCHED, history);
    var r := w.disposers[install].registry;
    assert w.disposers[install := Disposer(r, true)] == w.disposers;
    if w.current.Some? && w.registries[r].owner == install {
      assert r != w.current.value;
    }
  }

  /** A concrete history that ends in that case: install, dispose, install, dispose the first again. */
  lemma DoubleDisposalBreaksTheProtocol(a: Installer, b: Installer)
    ensures var w := Disposed(Installed(Disposed(Installed(UNTOUCHED, a), 0), b), 0);
            !Invariant(w) && w.fetch == Wrapper(1) && w.current == None
  {
    var first := Installed(UNTOUCHED, a);
    var second := Disposed(first, 0);
    assert second == World(Native, None, [Registry(Native, 0, a)], [Disposer(0, true)]);
    var third := Installed(second, b);
    assert third == World(Wrapper(1), Some(1), [Registry(Native, 0, a), Registry(Native, 1, b)],
        [Disposer(0, true), Disposer(1, false)]);
  }

  /** What one fetch call turns into. */
  datatype Outcome = CallsNative | CallsRouted(routedFetch: nat, dispatcher: nat) | CallsWrapper(registry: nat)

  /** The wrapper of registry `r`: `Stored` gives the route in a store's context, `Default` a resolver's answer. */
  function WrapperCall(w: World, r: nat, Stored: nat -> Option<nat>, Default: nat -> Option<nat>,
      ownDispatcher: bool): Outcome
    requires r < |w.registries|
  {
    var registry := w.registries[r];
    var route := if Stored(registry.installer.store).Some? then Stored(registry.installer.store)
        else Default(registry.installer.resolver);
    if route.None? || ownDispatcher then
      match registry.original
      case Native => CallsNative
      case Wrapper(inner) => CallsWrapper(inner)
    else CallsRouted(registry.installer.routedFetch, route.value)
  }

  function FetchCall(w: World, Stored: nat -> Option<nat>, Default: nat -> Option<nat>, ownDispatcher: bool): Outcome
    requires Linked(w) && (w.fetch.Wrapper? ==> w.fetch.registry < |w.registries|)
  {
    match w.fetch
    case Native => CallsNative
    case Wrapper(r) => WrapperCall(w, r, Stored, Default, ownDispatcher)
  }

  /**
   A fetch call after any history is routed exactly when a router is active, the call brings no dispatcher of its own,
   and the latest installer's store or else its resolver has a route; it then uses the latest installer's routed fetch.
   In every other case it reaches the platform's fetch, never another wrapper.
   */
  lemma FetchUsesTheLatestInstaller(history: seq<Action>, Stored: nat -> Option<nat>, Default: nat -> Option<nat>,
      ownDispatcher: bool)
    requires Feasible(UNTOUCHED, history)
    ensures var w := Run(UNTOUCHED, history);
            var seen := Installers(history);
            && Linked(w) && (w.fetch.Wrapper? ==> w.fetch.registry < |w.registries|) && (Active(w) ==> seen != [])
            && FetchCall(w, Stored, Default, ownDispatcher) ==
                 if !Active(w) || ownDispatcher then CallsNative
                 else
                   var last := seen[|seen| - 1];
                   if Stored(last.store).Some? then CallsRouted(last.routedFetch, Stored(last.store).value)
                   else if Default(last.resolver).Some? then CallsRouted(last.routedFetch, Default(last.resolver).value)
                   else CallsNative
  {
    RouterProtocol(history);
  }
}
