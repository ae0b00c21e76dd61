/**
 The queue of immediate proxy saves of `app.js`: every toggle appends one mutation to a promise chain; each link clones
 the configuration, applies its mutation, and sends the result under the revision it holds.
 */
module ProxySaves {
  import opened DirectRules
  import opened Text
  import opened Wrappers

  type Revision = nat

  /** The part of a proxy configuration that a save sends back; `connection` stands for its `proxy` object. */
  datatype ModelApi = ModelApi(defaultEnabled: Option<bool>, providers: Option<map<string, bool>>)

  datatype Config = Config(enabled: Option<bool>, connection: string, scopes: map<string, bool>,
                           allProxy: Option<string>, modelApi: Option<ModelApi>,
                           noProxyUser: Option<seq<string>>, bypassAdditional: Option<seq<string>>)

  /**
   proxyCandidate for an immediate save: the saved connection and rules, every missing part replaced by its default.
   */
  function Candidate(c: Config): Config {
    var api := c.modelApi.GetOr(ModelApi(None, None));
    Config(Some(c.enabled == Some(true)), c.connection, c.scopes, c.allProxy,
           Some(ModelApi(Some(api.defaultEnabled.GetOr(false)), Some(api.providers.GetOr(map[])))),
           Some(c.noProxyUser.GetOr([])), Some(c.bypassAdditional.GetOr([])))
  }

  /** A configuration with all its parts, as every candidate is. */
  predicate Complete(c: Config) {
    && c.enabled.Some? && c.noProxyUser.Some? && c.bypassAdditional.Some?
    && c.modelApi.Some? && c.modelApi.value.defaultEnabled.Some? && c.modelApi.value.providers.Some?
  }

  /** A candidate completes a configuration: it keeps every part there is, and the missing ones mean off and empty. */
  lemma CandidateCompletes(c: Config)
    ensures Complete(Candidate(c)) && (Complete(c) ==> Candidate(c) == c)
    ensures Candidate(c).connection == c.connection && Candidate(c).scopes == c.scopes
        && Candidate(c).allProxy == c.allProxy
    ensures c.enabled.Some? ==> Candidate(c).enabled == c.enabled
    ensures c.noProxyUser.Some? ==> Candidate(c).noProxyUser == c.noProxyUser
    ensures c.bypassAdditional.Some? ==> Candidate(c).bypassAdditional == c.bypassAdditional
    ensures c.modelApi.Some? && c.modelApi.value.defaultEnabled.Some? ==>
              Candidate(c).modelApi.value.defaultEnabled == c.modelApi.value.defaultEnabled
    ensures c.modelApi.Some? && c.modelApi.value.providers.Some? ==>
              Candidate(c).modelApi.value.providers == c.modelApi.value.providers
    ensures Candidate(Config(None, c.connection, c.scopes, c.allProxy, None, None, None))
        == Config(Some(false), c.connection, c.scopes, c.allProxy, Some(ModelApi(Some(false), Some(map[]))),
                  Some([]), Some([]))
    ensures c.modelApi == Some(ModelApi(None, None)) ==>
              Candidate(c).modelApi == Some(ModelApi(Some(false), Some(map[])))
  {
    if c.enabled.Some? {
      var on := c.enabled.value;
      assert c.enabled == Some(on);
      assert on <==> c.enabled == Some(true);
    }
  }

  datatype Mutation = SetEnabled(on: bool) | SetScope(scope: string, on: bool) | SetProvider(provider: string, on: bool)

  /** The mutating closure on a clone; None when it throws because there is no object to assign into. */
  function Mutated(c: Config, m: Mutation): Option<Config> {
    match m
    case SetEnabled(on) => Some(c.(enabled := Some(on)))
    case SetScope(scope, on) => Some(c.(scopes := c.scopes[scope := on]))
    case SetProvider(provider, on) =>
      if c.modelApi.None? || c.modelApi.value.providers.None? then None
      else
        var policies := c.modelApi.value.providers.value[provider := on];
        Some(c.(modelApi := Some(c.modelApi.value.(providers := Some(policies)))))
  }

  /**
   A toggle of a provider needs the list of providers to be there, as it is in every complete configuration; the other
   toggles always apply.
   */
  lemma MutationThrowsExactlyWhen(c: Config, m: Mutation)
    ensures Mutated(c, m).None?
        <==> m.SetProvider? && forall api :: c.modelApi == Some(api) ==> api.providers.None?
    ensures Complete(c) ==> Mutated(c, m).Some?
  {
    assert c.modelApi.Some? ==> c.modelApi == Some(c.modelApi.value);
  }

  /**
   A queued closure: the provider toggles fix their value when queued, the others read their checkbox when they run.
   */
  datatype Pending = Fixed(mutation: Mutation) | MasterCheckbox | ScopeCheckbox(scope: string)

  /** The fields captured before a save and restored after it. */
  datatype Draft = Draft(connection: string, rules: string, allProxy: bool, secrets: string)

  datatype Form = Form(draft: Draft, master: bool, scopes: map<string, bool>)

  function Resolved(p: Pending, form: Form): Mutation {
    match p
    case Fixed(mutation) => mutation
    case MasterCheckbox => SetEnabled(form.master)
    case ScopeCheckbox(scope) => SetScope(scope, scope in form.scopes && form.scopes[scope])
  }

  /** renderProxyConfiguration: everything but the secrets follows the configuration. */
  function Rendered(c: Config, form: Form): Form {
    Form(Draft(c.connection, DirectRuleText(Rules(c.noProxyUser.GetOr([]), c.bypassAdditional.GetOr([]))),
               c.allProxy == Some("scope-proxy"), form.draft.secrets),
         c.enabled == Some(true), c.scopes)
  }

  /** The configuration the page holds, with its revision. */
  datatype Held = Held(config: Config, revision: Revision)

  datatype Request = Request(value: Config, baseRevision: Revision)

  datatype Phase = Ready | Saving(draft: Draft) | Recovering | Rejected

  /** The page: what it holds, the form, the closures not yet run, and where the chain stands. */
  datatype Page = Page(held: Option<Held>, form: Form, queue: seq<Pending>, phase: Phase)

  function Enqueued(p: Page, pending: Pending): Page {
    p.(queue := p.queue + [pending])
  }

  predicate CanRun(p: Page) {
    p.phase.Ready? && p.queue != []
  }

  /** The value the head of the queue would send; None when its closure throws, which happens outside the try block. */
  function NextConfig(p: Page): Option<Config>
    requires CanRun(p)
  {
    if p.held.None? then None else Mutated(p.held.value.config, Resolved(p.queue[0], p.form))
  }

  /** One link of the chain up to its request. A throwing closure rejects the chain, and no later link ever runs. */
  function Started(p: Page): (Page, Option<Request>)
    requires CanRun(p)
  {
    match NextConfig(p)
    case None => (p.(queue := p.queue[1..], phase := Rejected), None)
    case Some(next) =>
      (p.(queue := p.queue[1..], phase := Saving(p.form.draft)), Some(Request(Candidate(next), p.held.value.revision)))
  }

  function SaveAccepted(p: Page, held: Held): Page
    requires p.phase.Saving?
  {
    p.(held := Some(held), form := Rendered(held.config, p.form).(draft := p.phase.draft), phase := Ready)
  }

  function SaveRefused(p: Page): Page {
    p.(phase := Recovering)
  }

  function SaveFailed(p: Page): Page {
    p.(form := if p.held.Some? then Rendered(p.held.value.config, p.form) else p.form, phase := Ready)
  }

  /** loadProxy, or any other code that replaces the configuration by a server reply. */
  function Reloaded(p: Page, held: Held): Page {
    p.(held := Some(held), form := Rendered(held.config, p.form.(draft := p.form.draft.(secrets := ""))))
  }

  function Recovered(p: Page, held: Option<Held>): Page {
    (if held.Some? then Reloaded(p, held.value) else p).(phase := Ready)
  }

  class ProxyPanel {
    var proxyConfiguration: Option<Held>
    var form: Form
    var proxyImmediateSave: seq<Pending>
    var phase: Phase

    ghost function Current(): Page
      reads this
    {
      Page(proxyConfiguration, form, proxyImmediateSave, phase)
    }

    constructor (form: Form)
      ensures Current() == Page(None, form, [], Ready)
    {
      proxyConfiguration, this.form, proxyImmediateSave, phase := None, form, [], Ready;
    }

    method SaveProxyImmediate(pending: Pending)
      modifies this`proxyImmediateSave
      ensures Current() == Enqueued(old(Current()), pending)
    {
      proxyImmediateSave := proxyImmediateSave + [pending];
    }

    method RenderProxyConfiguration()
      modifies this`form
      ensures form == if proxyConfiguration.Some? then Rendered(proxyConfiguration.value.config, old(form))
          else old(form)
    {
      if proxyConfiguration.None? { return; }
      var c := proxyConfiguration.value.config;
      var rules := DirectRuleText(Rules(c.noProxyUser.GetOr([]), c.bypassAdditional.GetOr([])));
      form := form.(master := c.enabled == Some(true), scopes := c.scopes);
      var all := c.allProxy == Some("scope-proxy");
      form := form.(draft := form.draft.(connection := c.connection, rules := rules, allProxy := all));
    }

    method RunNext() returns (request: Option<Request>)
      requires CanRun(Current())
      modifies this`proxyImmediateSave, this`phase
      ensures (Current(), request) == Started(old(Current()))
    {
      var draft := form.draft;
      var mutation := Resolved(proxyImmediateSave[0], form);
      proxyImmediateSave := proxyImmediateSave[1..];
      if proxyConfiguration.None? {
        phase := Rejected;
        return None;
      }
      var next := Mutated(proxyConfiguration.value.config, mutation);
      if next.None? {
        phase := Rejected;
        return None;
      }
      phase := Saving(draft);
      return Some(Request(Candidate(next.value), proxyConfiguration.value.revision));
    }

    method OnAccepted(reply: Held)
      requires phase.Saving?
      modifies this
      ensures Current() == SaveAccepted(old(Current()), reply)
    {
      proxyConfiguration := Some(reply);
      RenderProxyConfiguration();
      form := form.(draft := phase.draft);
      phase := Ready;
    }

    method OnError(status: int)
      requires phase.Saving?
      modifies this
      ensures Current() == if status == 409 then SaveRefused(old(Current())) else SaveFailed(old(Current()))
    {
      if status == 409 {
        phase := Recovering;
      } else {
        RenderProxyConfiguration();
        phase := Ready;
      }
    }

    method Reload(reply: Held)
      modifies this`proxyConfiguration, this`form
      ensures Current() == Reloaded(old(Current()), reply)
    {
      proxyConfiguration := Some(reply);
      form := form.(draft := form.draft.(secrets := ""));
      RenderProxyConfiguration();
    }

    method OnRecovered(reply: Option<Held>)
      requires phase.Recovering?
      modifies this
      ensures Current() == Recovered(old(Current()), reply)
    {
      if reply.Some? { Reload(reply.value); }
      phase := Ready;
    }
  }

  /**
   An accepted save: the position of its closure in the queue, its mutation, and the stored configurations around it.
   */
  datatype Write = Write(position: nat, mutation: Mutation, before: Config, after: Config)

  /** A request with the closure it came from and the configuration that the closure saw. */
  datatype Save = Save(request: Request, position: nat, mutation: Mutation, base: Config)

  /** The request of the running link: unanswered or answered. */
  datatype Flight = NoFlight | Sent(save: Save) | Answered(held: Held) | Conflict

  /**
   The page with a revision-checking server that other writers change too. `done` counts the closures that have run;
   `lost` are requests whose page has seen a failure although the server may still process them; `known` records the
   configuration of every revision ever given out.
   */
  datatype World = World(page: Page, done: nat, flight: Flight, lost: set<Save>, config: Config, revision: Revision,
                         known: map<Revision, Config>, log: seq<Write>)

  datatype Event =
    | Toggle(pending: Pending, form: Form)      // the user changes a checkbox, which queues a closure
    | Type(form: Form)                          // any other change of the form
    | RunLink                                   // the next closure runs
    | ServerSaves(next: Revision)               // the server processes the request
    | ServerSavesLate(save: Save, next: Revision)  // it processes one whose page has given up
    | Reply                                     // its reply arrives
    | Break(status: int)                        // the request fails otherwise
    | Recover(reply: Option<Revision>)          // the reload after a conflict ends
    | Load(revision: Revision)                  // other code replaces the held configuration by a server reply
    | OtherWrite(config: Config, next: Revision)

  predicate Enabled(w: World, event: Event) {
    match event
    case Toggle(_, _) => true
    case Type(_) => true
    case RunLink => CanRun(w.page)
    case ServerSaves(next) => w.flight.Sent? && next !in w.known
    case ServerSavesLate(save, next) => save in w.lost && next !in w.known
    case Reply => (w.flight.Answered? || w.flight.Conflict?) && w.page.phase.Saving?
    case Break(status) => !w.flight.NoFlight? && w.page.phase.Saving? && status != 409
    case Recover(reply) => w.page.phase.Recovering? && (reply.Some? ==> reply.value in w.known)
    case Load(revision) => revision in w.known
    case OtherWrite(_, next) => next !in w.known
  }

  /** The server accepts a request: the configuration it replaces is the one in force. */
  function Stored(w: World, save: Save, next: Revision): World {
    w.(config := save.request.value, revision := next, known := w.known[next := save.request.value],
       log := w.log + [Write(save.position, save.mutation, w.config, save.request.value)])
  }

  function Step(w: World, event: Event): World
    requires Enabled(w, event)
  {
    match event
    case Toggle(pending, form) => w.(page := Enqueued(w.page.(form := form), pending))
    case Type(form) => w.(page := w.page.(form := form))
    case RunLink =>
      var (page, request) := Started(w.page);
      w.(page := page, done := w.done + 1,
          flight := if request.None? then NoFlight
                   else Sent(Save(request.value, w.done, Resolved(w.page.queue[0], w.page.form),
                       w.page.held.value.config)))
    case ServerSaves(next) =>
      var save := w.flight.save;
      if save.request.baseRevision != w.revision then w.(flight := Conflict)
      else Stored(w, save, next).(flight := Answered(Held(save.request.value, next)))
    case ServerSavesLate(save, next) =>
      (if save.request.baseRevision != w.revision then w else Stored(w, save, next)).(lost := w.lost - {save})
    case Reply =>
      w.(flight := NoFlight,
         page := if w.flight.Answered? then SaveAccepted(w.page, w.flight.held) else SaveRefused(w.page))
    case Break(_) =>
      w.(page := SaveFailed(w.page), flight := NoFlight,
         lost := if w.flight.Sent? then w.lost + {w.flight.save} else w.lost)
    case Recover(reply) =>
      w.(page := Recovered(w.page, if reply.Some? then Some(Held(w.known[reply.value], reply.value)) else None))
    case Load(revision) => w.(page := Reloaded(w.page, Held(w.known[revision], revision)))
    case OtherWrite(config, next) => w.(config := config, revision := next, known := w.known[next := config])
  }

  /** A request under way is the head closure's mutation of a configuration that the server once gave out. */
  ghost predicate SaveFits(w: World, save: Save) {
    && save.position < w.done
    && save.request.baseRevision in w.known && w.known[save.request.baseRevision] == save.base
    && Mutated(save.base, save.mutation).Some?
    && save.request.value == Candidate(Mutated(save.base, save.mutation).value)
  }

  ghost predicate PairFits(w: World, held: Held) {
    held.revision in w.known && w.known[held.revision] == held.config
  }

  ghost predicate PagesFit(w: World) {
    && PairFits(w, Held(w.config, w.revision))
    && (w.page.held.Some? ==> PairFits(w, w.page.held.value))
    && (w.flight.Answered? ==> PairFits(w, w.flight.held))
    && (w.flight.Sent? ==> SaveFits(w, w.flight.save) && w.flight.save.position + 1 == w.done)
    && (forall save :: save in w.lost ==> SaveFits(w, save))
    && (w.flight.NoFlight? <==> !w.page.phase.Saving?)
  }

  /** Each accepted save is its own mutation of the configuration it replaced. */
  ghost predicate IsOwnMutation(write: Write) {
    var mutated := Mutated(write.before, write.mutation);
    mutated.Some? && write.after == Candidate(mutated.value)
  }

  /** A request that is not later in the queue than some accepted one has lost its chance: its revision is outdated. */
  ghost predicate Outdated(w: World, save: Save) {
    forall k :: 0 <= k < |w.log| && w.log[k].position >= save.position ==> save.request.baseRevision != w.revision
  }

  ghost predicate LogFits(w: World) {
    && (forall k :: 0 <= k < |w.log| ==> IsOwnMutation(w.log[k]) && w.log[k].position < w.done)
    && (forall k, l :: 0 <= k < l < |w.log| ==> w.log[k].position < w.log[l].position)
    && (w.flight.Sent? ==> Outdated(w, w.flight.save))
    && (forall save :: save in w.lost ==> Outdated(w, save))
  }

  ghost predicate Invariant(w: World) {
    PagesFit(w) && LogFits(w)
  }

  lemma StoringKeepsInvariant(w: World, save: Save, next: Revision)
    requires Invariant(w) && SaveFits(w, save) && Outdated(w, save) && save.request.baseRevision == w.revision
        && next !in w.known
    ensures Invariant(Stored(w, save, next))
  {
    var t := Stored(w, save, next);
    assert forall k :: 0 <= k < |w.log| ==> t.log[k] == w.log[k];
    assert forall other :: SaveFits(w, other) ==> SaveFits(t, other) && Outdated(t, other);
  }

  lemma ServerStepKeepsInvariant(w: World, event: Event)
    requires Invariant(w) && Enabled(w, event) && (event.ServerSaves? || event.ServerSavesLate? || event.OtherWrite?)
    ensures Invariant(Step(w, event))
  {
    hide Mutated, Candidate;
    if event.ServerSaves? && w.flight.save.request.baseRevision == w.revision {
      StoringKeepsInvariant(w, w.flight.save, event.next);
    }
    if event.ServerSavesLate? && event.save.request.baseRevision == w.revision {
      StoringKeepsInvariant(w, event.save, event.next);
    }
  }

  lemma LinkKeepsInvariant(w: World)
    requires Invariant(w) && CanRun(w.page)
    ensures Invariant(Step(w, RunLink))
  {
    hide Mutated, Candidate, Resolved;
  }

  lemma PageStepKeepsInvariant(w: World, event: Event)
    requires Invariant(w) && Enabled(w, event)
    requires !(event.ServerSaves? || event.ServerSavesLate? || event.OtherWrite? || event.RunLink?)
    ensures Invariant(Step(w, event))
  {
    hide Mutated, Candidate, Rendered;
  }

  lemma StepKeepsInvariant(w: World, event: Event)
    requires Invariant(w) && Enabled(w, event)
    ensures Invariant(Step(w, event))
  {
    hide Invariant, Step;
    if event.RunLink? {
      LinkKeepsInvariant(w);
    } else if event.ServerSaves? || event.ServerSavesLate? || event.OtherWrite? {
      ServerStepKeepsInvariant(w, event);
    } else {
      PageStepKeepsInvariant(w, event);
    }
  }

  ghost predicate Feasible(w: World, events: seq<Event>)
    decreases |events|
  {
    events == [] || (Enabled(w, events[0]) && Feasible(Step(w, events[0]), events[1..]))
  }

  ghost function Run(w: World, events: seq<Event>): World
    requires Feasible(w, events)
    decreases |events|
  {
    if events == [] then w else Run(Step(w, events[0]), events[1..])
  }

  lemma {:induction false} RunKeepsInvariant(w: World, events: seq<Event>)
    requires Feasible(w, events) && Invariant(w)
    ensures Invariant(Run(w, events))
    decreases |events|
  {
    hide Invariant, Step, Enabled;
    if events != [] {
      StepKeepsInvariant(w, events[0]);
      RunKeepsInvariant(Step(w, events[0]), events[1..]);
    }
  }

  function Start(config: Config, revision: Revision, form: Form): World {
    World(Page(None, form, [], Ready), 0, NoFlight, {}, config, revision, map[revision := config], [])
  }

  /** The closures queued in a run, in order. */
  ghost function Queued(events: seq<Event>): seq<Pending> {
    if events == [] then []
    else (if events[0].Toggle? then [events[0].pending] else []) + Queued(events[1..])
  }

  /**
   One step moves at most the head of the queue from "not yet run" to "run", and adds at most one closure at its end.
   */
  lemma QueueOfOneStep(w: World, event: Event, before: seq<Pending>)
    requires Enabled(w, event)
    ensures var t := Step(w, event);
            var now := if event.RunLink? then before + [w.page.queue[0]] else before;
            && t.done == w.done + (if event.RunLink? then 1 else 0)
            && now + t.page.queue == before + w.page.queue + if event.Toggle? then [event.pending] else []
  {
    hide Rendered, Mutated, Candidate, Resolved;
  }

  /** The queue is what was queued minus what has run. */
  lemma {:induction false} ClosuresRunInOrder(w: World, events: seq<Event>, before: seq<Pending>)
    requires Feasible(w, events) && |before| == w.done
    ensures var t := Run(w, events);
            && w.done <= t.done <= |before + w.page.queue + Queued(events)|
            && t.page.queue == (before + w.page.queue + Queued(events))[t.done..]
    decreases |events|
  {
    hide Step;
    if events != [] {
      var now := if events[0].RunLink? then before + [w.page.queue[0]] else before;
      QueueOfOneStep(w, events[0], before);
      ClosuresRunInOrder(Step(w, events[0]), events[1..], now);
      var added := if events[0].Toggle? then [events[0].pending] else [];
      ConcatIsAssociative(before + w.page.queue, added, Queued(events[1..]));
    }
  }

  /**
   For any toggles, typing, failures, late replies, reloads and other writers: every accepted save of the queue turns
   the configuration in force at the server into its own mutation of it, the saves are accepted in queue order and at
   most once each, and the closures run in the order in which they were queued.
   */
  lemma AcceptedSavesAreOwnMutationsInOrder(config: Config, revision: Revision, form: Form, events: seq<Event>)
    requires Feasible(Start(config, revision, form), events)
    ensures var w := Run(Start(config, revision, form), events);
            && (forall k :: 0 <= k < |w.log| ==> IsOwnMutation(w.log[k]) && w.log[k].position < w.done)
            && (forall k, l :: 0 <= k < l < |w.log| ==> w.log[k].position < w.log[l].position)
            && w.done <= |Queued(events)| && w.page.queue == Queued(events)[w.done..]
  {
    var start := Start(config, revision, form);
    RunKeepsInvariant(start, events);
    ClosuresRunInOrder(start, events, []);
    assert [] + start.page.queue + Queued(events) == Queued(events);
  }

  /** The mutation in the log is the one its closure was queued with, when that value was fixed at queueing. */
  ghost predicate LogFollowsQueue(w: World, queued: seq<Pending>) {
    && (forall k :: 0 <= k < |w.log| && w.log[k].position < |queued| && queued[w.log[k].position].Fixed? ==>
          w.log[k].mutation == queued[w.log[k].position].mutation)
    && (w.flight.Sent? ==> FollowsQueue(w.flight.save, queued))
    && (forall save :: save in w.lost ==> FollowsQueue(save, queued))
  }

  ghost predicate FollowsQueue(save: Save, queued: seq<Pending>) {
    save.position < |queued| && queued[save.position].Fixed? ==> save.mutation == queued[save.position].mutation
  }

  lemma {:induction false} FixedValuesAreSavedAsQueued(w: World, events: seq<Event>, before: seq<Pending>)
    requires Feasible(w, events) && |before| == w.done
    requires LogFollowsQueue(w, before + w.page.queue + Queued(events))
    ensures LogFollowsQueue(Run(w, events), before + w.page.queue + Queued(events))
    decreases |events|
  {
    hide Step, LogFollowsQueue;
    if events != [] {
      var now := if events[0].RunLink? then before + [w.page.queue[0]] else before;
      var queued := before + w.page.queue + Queued(events);
      QueueOfOneStep(w, events[0], before);
      var added := if events[0].Toggle? then [events[0].pending] else [];
      ConcatIsAssociative(before + w.page.queue, added, Queued(events[1..]));
      StepFollowsQueue(w, events[0], queued);
      FixedValuesAreSavedAsQueued(Step(w, events[0]), events[1..], now);
    }
  }

  lemma StepFollowsQueue(w: World, event: Event, queued: seq<Pending>)
    requires Enabled(w, event) && LogFollowsQueue(w, queued)
    requires event.RunLink? ==> w.done < |queued| && queued[w.done] == w.page.queue[0]
    ensures LogFollowsQueue(Step(w, event), queued)
  {
    hide Mutated, Candidate, Rendered;
  }

  /**
   Queue values that are fixed reach the server unchanged: the n-th queued fixed mutation is the one that an accepted
   save at position n carries.
   */
  lemma FixedMutationsReachTheServer(config: Config, revision: Revision, form: Form, events: seq<Event>)
    requires Feasible(Start(config, revision, form), events)
    ensures var w := Run(Start(config, revision, form), events);
            forall k :: 0 <= k < |w.log| ==>
              w.log[k].position < |Queued(events)|
              && (Queued(events)[w.log[k].position].Fixed? ==>
                  w.log[k].mutation == Queued(events)[w.log[k].position].mutation)
  {
    var start := Start(config, revision, form);
    AcceptedSavesAreOwnMutationsInOrder(config, revision, form, events);
    assert [] + start.page.queue + Queued(events) == Queued(events);
    FixedValuesAreSavedAsQueued(start, events, []);
  }

  /** On a complete configuration the stored result is complete and differs in the mutated entry only. */
  lemma OwnMutationTouchesOnlyItsEntry(write: Write)
    requires IsOwnMutation(write) && Complete(write.before)
    ensures Complete(write.after)
    ensures write.after.connection == write.before.connection && write.after.allProxy == write.before.allProxy
    ensures write.after.noProxyUser == write.before.noProxyUser
        && write.after.bypassAdditional == write.before.bypassAdditional
    ensures write.after.modelApi.value.defaultEnabled == write.before.modelApi.value.defaultEnabled
    ensures match write.mutation
            case SetEnabled(on) =>
              write.after == write.before.(enabled := Some(on))
            case SetScope(scope, on) =>
              write.after == write.before.(scopes := write.before.scopes[scope := on])
            case SetProvider(provider, on) =>
              && write.after.modelApi.value.providers.value
                  == write.before.modelApi.value.providers.value[provider := on]
              && write.after.enabled == write.before.enabled && write.after.scopes == write.before.scopes
  {
    var on := write.before.enabled.value;
    assert on <==> write.before.enabled == Some(true);
    assert write.before.enabled == Some(on);
  }

  /** Whatever happens while a save waits for its reply, the fields captured at its start stay captured... */
  lemma {:induction false} CapturedDraftStays(w: World, events: seq<Event>)
    requires Feasible(w, events) && w.page.phase.Saving?
    requires forall i :: 0 <= i < |events| ==> !events[i].Reply? && !events[i].Break?
    ensures Run(w, events).page.phase == w.page.phase
    decreases |events|
  {
    if events != [] {
      assert !events[0].Reply? && !events[0].Break?;
      CapturedDraftStays(Step(w, events[0]), events[1..]);
    }
  }

  /** ... and are the ones shown after the save has been accepted, whatever was typed or loaded in between. */
  lemma AcceptedSaveRestoresItsDraft(w: World, events: seq<Event>)
    requires Feasible(w, events) && w.page.phase.Saving? && Run(w, events).flight.Answered?
    requires forall i :: 0 <= i < |events| ==> !events[i].Reply? && !events[i].Break?
    ensures var t := Run(w, events);
            Enabled(t, Reply) && Step(t, Reply).page.form.draft == w.page.phase.draft
                && Step(t, Reply).page.held == Some(t.flight.held)
  {
    CapturedDraftStays(w, events);
  }

  /**
   A link sends its request exactly when a configuration is held and its closure can be applied to it; otherwise the
   chain is rejected, and then no later closure ever runs and nothing more is saved.
   */
  lemma {:induction false} RejectedChainStaysSilent(w: World, events: seq<Event>)
    requires Feasible(w, events) && w.page.phase.Rejected? && w.flight.NoFlight? && w.lost == {}
    ensures Run(w, events).page.phase.Rejected? && Run(w, events).done == w.done && Run(w, events).log == w.log
    decreases |events|
  {
    if events != [] {
      RejectedChainStaysSilent(Step(w, events[0]), events[1..]);
    }
  }

  lemma LinkSendsExactlyWhenItCan(w: World)
    requires CanRun(w.page)
    ensures var t := Step(w, RunLink);
            && (t.flight.Sent? <==>
                  && w.page.held.Some?
                  && Mutated(w.page.held.value.config, Resolved(w.page.queue[0], w.page.form)).Some?)
            && (t.flight.Sent? ==> t.page.phase == Saving(w.page.form.draft))
            && (t.page.phase.Rejected? <==> !t.flight.Sent?)
  {
  }

  /** The configuration that a step renders into the form, checkboxes included. */
  function RenderedBy(w: World, event: Event): Option<Config>
    requires Enabled(w, event)
  {
    match event
    case Reply => if w.flight.Answered? then Some(w.flight.held.config) else None
    case Break(_) => if w.page.held.Some? then Some(w.page.held.value.config) else None
    case Recover(reply) => if reply.Some? then Some(w.known[reply.value]) else None
    case Load(revision) => Some(w.known[revision])
    case _ => None
  }

  /** The last configuration that a run renders. */
  ghost function LastRendered(w: World, events: seq<Event>): Option<Config>
    requires Feasible(w, events)
    decreases |events|
  {
    if events == [] then None
    else
      var later := LastRendered(Step(w, events[0]), events[1..]);
      if later.Some? then later else RenderedBy(w, events[0])
  }

  /** The user does not touch the checkbox of a queued closure again. */
  ghost predicate LeavesCheckbox(w: World, events: seq<Event>, pending: Pending)
    requires Feasible(w, events)
    decreases |events|
  {
    events == []
    || (&& (events[0].Toggle? || events[0].Type? ==>
        Resolved(pending, events[0].form) == Resolved(pending, w.page.form))
        && LeavesCheckbox(Step(w, events[0]), events[1..], pending))
  }

  /** What a checkbox, left alone, shows in a form after a configuration has been rendered into it. */
  function ShownAfter(pending: Pending, form: Form, rendered: Option<Config>): Mutation {
    if rendered.None? then Resolved(pending, form) else Resolved(pending, Rendered(rendered.value, form))
  }

  lemma ShownAfterRendering(pending: Pending, c: Config, form: Form, other: Form)
    ensures Resolved(pending, Rendered(c, form)) == Resolved(pending, Rendered(c, other))
    ensures Resolved(pending, Rendered(c, form).(draft := other.draft)) == Resolved(pending, Rendered(c, form))
  {
    hide DirectRuleText;
  }

  lemma StepShows(w: World, event: Event, pending: Pending)
    requires Enabled(w, event)
    requires event.Toggle? || event.Type? ==> Resolved(pending, event.form) == Resolved(pending, w.page.form)
    ensures Resolved(pending, Step(w, event).page.form) == ShownAfter(pending, w.page.form, RenderedBy(w, event))
  {
    hide DirectRuleText, Mutated, Candidate;
  }

  /** A checkbox that is left alone shows the configuration last rendered, or else what it showed before. */
  lemma {:induction false} CheckboxShowsLastRendered(w: World, events: seq<Event>, pending: Pending)
    requires Feasible(w, events) && LeavesCheckbox(w, events, pending)
    ensures Resolved(pending, Run(w, events).page.form) == ShownAfter(pending, w.page.form, LastRendered(w, events))
    decreases |events|
  {
    hide Step, Enabled, Resolved, Rendered, RenderedBy;
    if events != [] {
      var next := Step(w, events[0]);
      StepShows(w, events[0], pending);
      CheckboxShowsLastRendered(next, events[1..], pending);
      var last := LastRendered(next, events[1..]);
      if last.Some? { ShownAfterRendering(pending, last.value, w.page.form, next.page.form); }
    }
  }

  /**
   The checkboxes are read only when their link runs. From a toggle of any kind to the step that runs its closure,
   whatever else happens as long as the user leaves the checkbox alone: the link sends the value the user chose if and
   only if nothing was rendered in between, or the configuration last rendered shows that value.
   */
  lemma QueuedCheckboxSavesTheRenderedValue(w: World, pending: Pending, chosen: Form, events: seq<Event>)
    requires var toggled := Step(w, Toggle(pending, chosen));
             && Feasible(toggled, events) && LeavesCheckbox(toggled, events, pending)
             && Run(toggled, events).done == w.done + |w.page.queue| && CanRun(Run(toggled, events).page)
    ensures var toggled := Step(w, Toggle(pending, chosen));
            var t := Run(toggled, events);
            var sent := Step(t, RunLink);
            var last := LastRendered(toggled, events);
            && t.page.queue != [] && t.page.queue[0] == pending
            && (sent.flight.Sent? ==>
                  && sent.flight.save.position == w.done + |w.page.queue|
                  && sent.flight.save.mutation == ShownAfter(pending, chosen, last)
                  && (sent.flight.save.mutation == Resolved(pending, chosen)
                      <==> last.None? || Resolved(pending, Rendered(last.value, chosen)) == Resolved(pending, chosen)))
            && (!pending.Fixed? ==> (sent.flight.Sent? <==> t.page.held.Some?))
  {
    var toggled := Step(w, Toggle(pending, chosen));
    var t := Run(toggled, events);
    var before := seq(w.done, _ => pending);
    ClosuresRunInOrder(toggled, events, before);
    var queued := before + toggled.page.queue + Queued(events);
    assert queued[w.done + |w.page.queue|] == pending;
    assert t.page.queue[0] == queued[t.done];
    CheckboxShowsLastRendered(toggled, events, pending);
    hide Rendered, Candidate, DirectRuleText;
  }

  /** The pair of configuration and revision that an event brings to the page. */
  function Received(w: World, event: Event): Option<Held>
    requires Enabled(w, event)
  {
    match event
    case Reply => if w.flight.Answered? then Some(w.flight.held) else None
    case Recover(Some(revision)) => Some(Held(w.known[revision], revision))
    case Load(revision) => Some(Held(w.known[revision], revision))
    case _ => None
  }

  /** The last pair that a run brings to the page. */
  ghost function LastReceived(w: World, events: seq<Event>): Option<Held>
    requires Feasible(w, events)
    decreases |events|
  {
    if events == [] then None
    else
      var later := LastReceived(Step(w, events[0]), events[1..]);
      if later.Some? then later else Received(w, events[0])
  }

  lemma StepReceives(w: World, event: Event)
    requires Enabled(w, event)
    ensures Step(w, event).page.held
        == if Received(w, event).Some? then Received(w, event) else w.page.held
  {
    hide Rendered, Mutated, Candidate, Resolved;
  }

  /** After any run the page holds the last pair it received: by a reply, the reload after a conflict, or a load. */
  lemma {:induction false} PageHoldsTheLastReceived(w: World, events: seq<Event>)
    requires Feasible(w, events)
    ensures Run(w, events).page.held
        == if LastReceived(w, events).Some? then LastReceived(w, events) else w.page.held
    decreases |events|
  {
    hide Step, Enabled, Received;
    if events != [] {
      StepReceives(w, events[0]);
      PageHoldsTheLastReceived(Step(w, events[0]), events[1..]);
    }
  }

  /** Nobody else writes or replaces what the page holds, and no request breaks off. */
  ghost predicate Undisturbed(events: seq<Event>) {
    forall k :: 0 <= k < |events| ==>
      !events[k].OtherWrite? && !events[k].ServerSavesLate? && !events[k].Break? && !events[k].Load?
  }

  /** The page knows the configuration in force, or the reply on its way will tell it. */
  predicate UpToDate(w: World) {
    var current := Held(w.config, w.revision);
    && !w.page.phase.Recovering? && (w.flight.NoFlight? <==> !w.page.phase.Saving?)
    && match w.flight
       case NoFlight => w.page.held == Some(current)
       case Sent(save) => w.page.held == Some(current) && save.base == w.config
                              && save.request.baseRevision == w.revision
       case Answered(held) => held == current
       case Conflict => false
  }

  lemma StepStaysUpToDate(w: World, event: Event)
    requires Enabled(w, event) && UpToDate(w)
    requires !event.OtherWrite? && !event.ServerSavesLate? && !event.Break? && !event.Load?
    ensures UpToDate(Step(w, event))
  {
    hide Rendered, Mutated, Candidate, Resolved;
  }

  lemma {:induction false} RunStaysUpToDate(w: World, events: seq<Event>)
    requires Feasible(w, events) && Undisturbed(events) && UpToDate(w)
    ensures UpToDate(Run(w, events))
    decreases |events|
  {
    hide Step, Enabled, UpToDate;
    if events != [] {
      assert Undisturbed(events[1..]) by {
        assert forall k :: 0 <= k < |events[1..]| ==> events[1..][k] == events[k + 1];
      }
      StepStaysUpToDate(w, events[0]);
      RunStaysUpToDate(Step(w, events[0]), events[1..]);
    }
  }

  /**
   What the reload after a conflict is for: with the current revision reloaded, the queue goes on at once, and as long
   as nobody else writes and no request breaks off, however many closures run, each sends its mutation of the
   configuration in force, the server accepts it, and no conflict comes up again.
   */
  lemma RecoveredPageConflictsNoMore(config: Config, revision: Revision, form: Form, before: seq<Event>,
      after: seq<Event>)
    requires Feasible(Start(config, revision, form), before)
    requires Run(Start(config, revision, form), before).page.phase.Recovering?
    requires var w := Run(Start(config, revision, form), before);
             && Enabled(w, Recover(Some(w.revision)))
             && Feasible(Step(w, Recover(Some(w.revision))), after)
    requires Undisturbed(after)
    ensures var w := Run(Start(config, revision, form), before);
            var recovered := Step(w, Recover(Some(w.revision)));
            var t := Run(recovered, after);
            && (w.page.queue != [] ==> Enabled(recovered, RunLink))
            && !t.flight.Conflict? && !t.page.phase.Recovering?
            && (t.flight.Sent? ==>
                  && t.flight.save.base == t.config
                  && forall next :: next !in t.known ==>
                       Step(t, ServerSaves(next)).flight == Answered(Held(t.flight.save.request.value, next)))
  {
    var w := Run(Start(config, revision, form), before);
    RunKeepsInvariant(Start(config, revision, form), before);
    var recovered := Step(w, Recover(Some(w.revision)));
    hide Rendered, Mutated, Candidate, Resolved;
    RunStaysUpToDate(recovered, after);
  }

  /** The saves that the server accepts in a run, each with the configuration in force at that time. */
  ghost function AcceptedIn(w: World, events: seq<Event>): seq<Write>
    requires Feasible(w, events)
    decreases |events|
  {
    if events == [] then []
    else AcceptedAt(w, events[0]) + AcceptedIn(Step(w, events[0]), events[1..])
  }

  function AcceptedAt(w: World, event: Event): seq<Write>
    requires Enabled(w, event)
  {
    if event.ServerSaves? && w.flight.save.request.baseRevision == w.revision then
      [Write(w.flight.save.position, w.flight.save.mutation, w.config, w.flight.save.request.value)]
    else if event.ServerSavesLate? && event.save.request.baseRevision == w.revision then
      [Write(event.save.position, event.save.mutation, w.config, event.save.request.value)]
    else []
  }

  /** The log leaves nothing out: it is the list of all accepted saves of the run. */
  lemma {:induction false} LogIsWhatWasAccepted(w: World, events: seq<Event>)
    requires Feasible(w, events)
    ensures Run(w, events).log == w.log + AcceptedIn(w, events)
    decreases |events|
  {
    if events != [] {
      assert Step(w, events[0]).log == w.log + AcceptedAt(w, events[0]) by {
        hide Rendered, Mutated, Candidate, Resolved;
      }
      hide Step, Enabled, AcceptedAt;
      LogIsWhatWasAccepted(Step(w, events[0]), events[1..]);
    }
  }

  /**
   The server's answer to a request: accepted exactly under the current revision, which a new one then replaces;
   otherwise everything stored stays, and the page that hears of it starts to recover with all it holds and shows.
   */
  lemma ServerAcceptsExactlyTheCurrentRevision(w: World, next: Revision)
    requires Enabled(w, ServerSaves(next)) && w.page.phase.Saving?
    ensures var save := w.flight.save;
            var t := Step(w, ServerSaves(next));
            && Enabled(t, Reply) && t.page == w.page
            && var heard := Step(t, Reply);
               if save.request.baseRevision == w.revision then
                 && t.config == save.request.value && t.revision == next
                 && heard.page.phase.Ready? && heard.page.held == Some(Held(t.config, t.revision))
               else
                 && t.config == w.config && t.revision == w.revision && t.log == w.log && heard.flight.NoFlight?
                 && heard.page == w.page.(phase := Recovering)
  {
    hide Rendered, Mutated, Candidate, Resolved;
  }

  /**
   A request that broke off may still be stored, and the page does not hear of it: the next closure that sends then does
   so under the outdated revision and is answered with a conflict.
   */
  lemma BrokenRequestMayStillBeStored(w: World, status: int, stored: Revision, next: Revision)
    requires Enabled(w, Break(status)) && w.flight.Sent? && w.page.queue != []
    requires w.page.held.Some? && w.page.held.value.revision == w.flight.save.request.baseRevision == w.revision
    requires w.revision in w.known && stored !in w.known && next !in w.known && next != stored
    ensures var broken := Step(w, Break(status));
            && Enabled(broken, ServerSavesLate(w.flight.save, stored))
            && var t := Step(broken, ServerSavesLate(w.flight.save, stored));
               && t.config == w.flight.save.request.value && t.page == broken.page && Enabled(t, RunLink)
               && !Enabled(t, ServerSavesLate(w.flight.save, next))
               && var sent := Step(t, RunLink);
                  sent.flight.Sent? ==>
                    Enabled(sent, ServerSaves(next)) && Step(sent, ServerSaves(next)).flight.Conflict?
  {
    hide Rendered, Mutated, Candidate, Resolved;
  }

  /** Whether the fields show what the page holds, not what the user typed, and the secrets among them. */
  datatype Fields = Fields(rendered: bool, secrets: string)

  function FieldsAfter(w: World, event: Event, fields: Fields): Fields
    requires Enabled(w, event)
  {
    match event
    case Toggle(_, form) => Fields(false, form.draft.secrets)
    case Type(form) => Fields(false, form.draft.secrets)
    case Reply => if w.flight.Answered? then Fields(false, w.page.phase.draft.secrets) else fields
    case Break(_) => if w.page.held.Some? then Fields(true, fields.secrets) else fields
    case Recover(Some(_)) => Fields(true, "")
    case Load(_) => Fields(true, "")
    case _ => fields
  }

  ghost function LastFields(w: World, events: seq<Event>, fields: Fields): Fields
    requires Feasible(w, events)
    decreases |events|
  {
    if events == [] then fields
    else LastFields(Step(w, events[0]), events[1..], FieldsAfter(w, events[0], fields))
  }

  /** The fields of a form show a configuration; the rules as text, one per line, in which they can be read back. */
  predicate ShowsFields(form: Form, c: Config) {
    var lists := Rules(c.noProxyUser.GetOr([]), c.bypassAdditional.GetOr([]));
    && form.draft.connection == c.connection
    && form.draft.rules == DirectRuleText(lists)
    && (form.draft.allProxy <==> c.allProxy == Some("scope-proxy"))
  }

  ghost predicate FieldsFit(w: World, fields: Fields) {
    && w.page.form.draft.secrets == fields.secrets
    && (fields.rendered ==> w.page.held.Some? && ShowsFields(w.page.form, w.page.held.value.config))
  }

  lemma StepKeepsFields(w: World, event: Event, fields: Fields)
    requires Enabled(w, event) && FieldsFit(w, fields)
    ensures FieldsFit(Step(w, event), FieldsAfter(w, event, fields))
  {
    hide DirectRuleText, Mutated, Candidate, Resolved;
  }

  /**
   In every run: unless the user has typed or an accepted save has put the user's fields back since the last rendering,
   the fields show the configuration that the page holds. Secrets are cleared by every load and by nothing else.
   */
  lemma {:induction false} FieldsShowTheHeldConfiguration(w: World, events: seq<Event>, fields: Fields)
    requires Feasible(w, events) && FieldsFit(w, fields)
    ensures FieldsFit(Run(w, events), LastFields(w, events, fields))
    decreases |events|
  {
    hide Step, Enabled, FieldsFit, FieldsAfter;
    if events != [] {
      StepKeepsFields(w, events[0], fields);
      FieldsShowTheHeldConfiguration(Step(w, events[0]), events[1..], FieldsAfter(w, events[0], fields));
    }
  }

  /** On an idle page the closure of a toggle runs next, and sends what the user chose. */
  lemma IdleToggleSavesTheChosenValue(w: World, pending: Pending, chosen: Form)
    requires w.page.phase.Ready? && w.page.queue == [] && w.page.held.Some? && !pending.Fixed?
    ensures var toggled := Step(w, Toggle(pending, chosen));
            && CanRun(toggled.page)
            && Step(toggled, RunLink).flight.Sent?
            && Step(toggled, RunLink).flight.save.mutation == Resolved(pending, chosen)
  {
    hide DirectRuleText, Candidate;
  }

  /**
   A concrete run for every configuration: the proxy is switched on and, while that is being saved, off again; both
   saves switch it on.
   */
  lemma OnAndOffSavesOnTwice(config: Config, form: Form)
    ensures var on, off := form.(master := true), form.(master := false);
            var loaded := Step(Start(config, 0, form), Load(0));
            var first := Step(Step(loaded, Toggle(MasterCheckbox, on)), RunLink);
            var toggled := Step(first, Toggle(MasterCheckbox, off));
            && first.flight.Sent? && first.flight.save.mutation == SetEnabled(true)
            && Enabled(toggled, ServerSaves(1))
            && var stored := Step(toggled, ServerSaves(1));
               && Enabled(stored, Reply) && CanRun(Step(stored, Reply).page)
               && var second := Step(Step(stored, Reply), RunLink);
                  second.flight.Sent? && second.flight.save.mutation == SetEnabled(true)
  {
    hide DirectRuleText;
  }

  /** A save that fails also renders: whatever is chosen meanwhile, the closure sends what the page holds. */
  lemma FailedSaveOverwritesTheCheckbox(w: World, scope: string, chosen: Form, status: int)
    requires w.page.phase.Saving? && !w.flight.NoFlight? && w.page.held.Some? && w.page.queue == [] && status != 409
    ensures var toggled := Step(w, Toggle(ScopeCheckbox(scope), chosen));
            && CanRun(Step(toggled, Break(status)).page)
            && var sent := Step(Step(toggled, Break(status)), RunLink);
               var scopes := w.page.held.value.config.scopes;
               sent.flight.Sent? && sent.flight.save.mutation == SetScope(scope, scope in scopes && scopes[scope])
  {
    hide DirectRuleText, Candidate;
  }

  /** A toggle before any configuration has been loaded rejects the chain: nothing is ever saved after it. */
  lemma ToggleBeforeLoadingRejectsTheChain(config: Config, form: Form, pending: Pending, later: seq<Event>)
    requires var toggled := Step(Start(config, 0, form), Toggle(pending, form));
             CanRun(toggled.page) && Feasible(Step(toggled, RunLink), later)
    ensures var t := Run(Step(Step(Start(config, 0, form), Toggle(pending, form)), RunLink), later);
            t.page.phase.Rejected? && t.done == 1 && t.log == []
  {
    RejectedChainStaysSilent(Step(Step(Start(config, 0, form), Toggle(pending, form)), RunLink), later);
  }
}
