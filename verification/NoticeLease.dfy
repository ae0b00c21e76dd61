/**
 The update reminder of the plugin's `client.js`: any number of tabs share one local storage, and a lease kept there
 lets one of them show the notice. Each handler is one step together with the rendering and effects it triggers; the
 clock is shared and storage accesses of different tabs do not overlap.
 */
module NoticeLease {
  import opened Wrappers

  const NOTICE_OWNER_TTL: int := 20000
  const RENEW_PERIOD: int := 10000
  const SNOOZE_TIME: int := 3600000

  datatype Kind = Stable | Upstream

  /** The one candidate the tab's update channel offers. */
  datatype Candidate = Candidate(kind: Kind, identity: string)

  datatype Lease = Lease(id: nat, expiresAt: int)

  datatype Snooze = Snooze(identity: string, until: int)

  datatype Storage = Storage(owner: Option<Lease>, snooze: Option<Snooze>, dismissed: map<Kind, string>)

  /** A mounted reminder; `identity` is the candidate at the last rendering, `due` the next renewal while it owns. */
  datatype Tab = Tab(visible: bool, offered: Option<Candidate>, identity: Option<string>, owns: bool, due: int)

  /** eligibleCandidates, reduced to the identity of its first element. */
  function EligibleIdentity(storage: Storage, offered: Option<Candidate>): Option<string> {
    if offered.None? then None
    else if && offered.value.kind in storage.dismissed
            && storage.dismissed[offered.value.kind] == offered.value.identity then None
    else Some(offered.value.identity)
  }

  predicate Snoozed(storage: Storage, identity: string, now: int) {
    storage.snooze.Some? && storage.snooze.value.identity == identity && storage.snooze.value.until > now
  }

  predicate LeaseFree(storage: Storage, id: nat, now: int) {
    storage.owner.None? || storage.owner.value.id == id || storage.owner.value.expiresAt <= now
  }

  /** The effect that runs after a rendering: give up the notice, or take or extend the lease when that is free. */
  function Evaluated(storage: Storage, tab: Tab, id: nat, now: int): (Storage, Tab) {
    var identity := EligibleIdentity(storage, tab.offered);
    if identity.None? || !tab.visible then (storage, tab.(identity := identity, owns := false))
    else if Snoozed(storage, identity.value, now) || !LeaseFree(storage, id, now) then
      (storage, tab.(identity := identity, owns := false))
    else
      (storage.(owner := Some(Lease(id, now + NOTICE_OWNER_TTL))),
       tab.(identity := identity, owns := true,
            due := if tab.owns && tab.identity == identity then tab.due else now + RENEW_PERIOD))
  }

  function Released(storage: Storage, id: nat): Storage {
    if storage.owner.Some? && storage.owner.value.id == id then storage.(owner := None) else storage
  }

  function VisibilitySet(storage: Storage, tab: Tab, id: nat, visible: bool, now: int): (Storage, Tab) {
    Evaluated(if visible then storage else Released(storage, id), tab.(visible := visible), id, now)
  }

  /** A refreshed status renders again, but the effect runs only when the identity has changed. */
  function Offered(storage: Storage, tab: Tab, id: nat, offered: Option<Candidate>, now: int): (Storage, Tab) {
    if EligibleIdentity(storage, offered) == tab.identity then (storage, tab.(offered := offered))
    else Evaluated(storage, tab.(offered := offered), id, now)
  }

  function DismissedBy(storage: Storage, tab: Tab, id: nat, permanent: bool, now: int): (Storage, Tab)
    requires tab.offered.Some? && tab.identity.Some?
  {
    var marked :=
      if permanent then storage.(dismissed := storage.dismissed[tab.offered.value.kind := tab.identity.value])
      else storage.(snooze := Some(Snooze(tab.identity.value, now + SNOOZE_TIME)));
    Evaluated(marked.(owner := None), tab, id, now)
  }

  /** The interval of an owning tab, at or after its due time; it writes the lease without looking. */
  function Renewed(storage: Storage, tab: Tab, id: nat, next: int, now: int): (Storage, Tab) {
    (storage.(owner := Some(Lease(id, now + NOTICE_OWNER_TTL))), tab.(due := next))
  }

  /** localStorage, shared by all tabs. */
  class LocalStorage {
    var owner: Option<Lease>
    var snooze: Option<Snooze>
    var dismissed: map<Kind, string>

    ghost function Current(): Storage
      reads this
    {
      Storage(owner, snooze, dismissed)
    }
  }

  class UpdateReminder {
    const id: nat
    const storage: LocalStorage
    var visible: bool
    var offered: Option<Candidate>
    var identity: Option<string>
    var ownsNotice: bool
    var due: int

    ghost function Current(): Tab
      reads this
    {
      Tab(visible, offered, identity, ownsNotice, due)
    }

    constructor (id: nat, storage: LocalStorage, visible: bool)
      ensures this.id == id && this.storage == storage
      ensures Current() == Tab(visible, None, None, false, 0)
    {
      this.id, this.storage, this.visible := id, storage, visible;
      offered, identity, ownsNotice, due := None, None, false, 0;
    }

    /** The identity that a rendering computes: that of the candidate, unless it was dismissed. */
    function Eligible(): (next: Option<string>)
      reads this, storage
      ensures next == EligibleIdentity(storage.Current(), offered)
    {
      if offered.None? then None
      else if && offered.value.kind in storage.dismissed
              && storage.dismissed[offered.value.kind] == offered.value.identity then None
      else Some(offered.value.identity)
    }

    /** The effect on the candidate's identity and the tick. */
    method Evaluate(now: int)
      modifies this`identity, this`ownsNotice, this`due, storage`owner
      ensures (storage.Current(), Current()) == Evaluated(old(storage.Current()), old(Current()), id, now)
    {
      var next := Eligible();
      var owned := ownsNotice && identity == next;
      identity := next;
      if next.None? || !visible {
        ownsNotice := false;
        return;
      }
      var available :=
        && !(storage.snooze.Some? && storage.snooze.value.identity == next.value && storage.snooze.value.until > now)
        && (storage.owner.None? || storage.owner.value.id == id || storage.owner.value.expiresAt <= now);
      if available {
        storage.owner := Some(Lease(id, now + NOTICE_OWNER_TTL));
        if !owned { due := now + RENEW_PERIOD; }
      }
      ownsNotice := available;
    }

    method SetVisibility(visible: bool, now: int)
      modifies this, storage`owner
      ensures (storage.Current(), Current()) == VisibilitySet(old(storage.Current()), old(Current()), id, visible, now)
    {
      this.visible := visible;
      if !visible && storage.owner.Some? && storage.owner.value.id == id { storage.owner := None; }
      Evaluate(now);
    }

    method SetOffer(offered: Option<Candidate>, now: int)
      modifies this, storage`owner
      ensures (storage.Current(), Current()) == Offered(old(storage.Current()), old(Current()), id, offered, now)
    {
      this.offered := offered;
      var next := Eligible();
      if next != identity { Evaluate(now); }
    }

    method Renew(next: int, now: int)
      requires ownsNotice
      modifies this`due, storage`owner
      ensures (storage.Current(), Current()) == Renewed(old(storage.Current()), old(Current()), id, next, now)
    {
      storage.owner := Some(Lease(id, now + NOTICE_OWNER_TTL));
      due := next;
    }

    /** The buttons of the notice, so only while it is shown. */
    method Dismiss(permanent: bool, now: int)
      requires ownsNotice && offered.Some? && identity.Some?
      modifies this, storage
      ensures (storage.Current(), Current()) == DismissedBy(old(storage.Current()), old(Current()), id, permanent, now)
    {
      if permanent {
        storage.dismissed := storage.dismissed[offered.value.kind := identity.value];
      } else {
        storage.snooze := Some(Snooze(identity.value, now + SNOOZE_TIME));
      }
      storage.owner := None;
      Evaluate(now);
    }

    method Unmount()
      modifies storage`owner
      ensures storage.Current() == Released(old(storage.Current()), id)
    {
      if storage.owner.Some? && storage.owner.value.id == id { storage.owner := None; }
    }
  }

  datatype World = World(now: int, storage: Storage, tabs: map<nat, Tab>)

  datatype Step =
    | Mount(id: nat, shown: bool)
    | Unmount(id: nat)
    | Tick(id: nat)                                   // a lease timer or a storage event: render again
    | Offer(id: nat, candidate: Option<Candidate>)    // a status refresh
    | Visibility(id: nat, shown: bool)
    | Renew(id: nat, next: int)
    | Dismiss(id: nat, permanent: bool)
    | ForgetDismissals                                // an update succeeded
    | Pass(later: int)                                // time passes

  predicate Showing(tab: Tab) {
    tab.owns && tab.identity.Some?
  }

  ghost predicate Possible(w: World, step: Step) {
    match step
    case Mount(id, _) => id !in w.tabs
    case Renew(id, next) =>
      id in w.tabs && w.tabs[id].owns && w.tabs[id].due <= w.now
          && w.tabs[id].due + RENEW_PERIOD <= next <= w.now + RENEW_PERIOD
    case Dismiss(id, _) => id in w.tabs && Showing(w.tabs[id]) && w.tabs[id].offered.Some?
    case ForgetDismissals => true
    case Pass(later) => w.now <= later
    case _ => step.id in w.tabs
  }

  /** The timing assumption: no owning tab's renewal is ten seconds or more late. */
  ghost predicate Timely(w: World, step: Step) {
    step.Pass? ==> forall id :: id in w.tabs && w.tabs[id].owns ==> step.later < w.tabs[id].due + RENEW_PERIOD
  }

  ghost function With(w: World, id: nat, result: (Storage, Tab)): World {
    w.(storage := result.0, tabs := w.tabs[id := result.1])
  }

  ghost function Next(w: World, step: Step): World
    requires Possible(w, step)
  {
    match step
    case Mount(id, shown) => w.(tabs := w.tabs[id := Tab(shown, None, None, false, 0)])
    case Unmount(id) => w.(storage := Released(w.storage, id), tabs := w.tabs - {id})
    case Tick(id) => With(w, id, Evaluated(w.storage, w.tabs[id], id, w.now))
    case Offer(id, candidate) => With(w, id, Offered(w.storage, w.tabs[id], id, candidate, w.now))
    case Visibility(id, shown) => With(w, id, VisibilitySet(w.storage, w.tabs[id], id, shown, w.now))
    case Renew(id, next) => With(w, id, Renewed(w.storage, w.tabs[id], id, next, w.now))
    case Dismiss(id, permanent) => With(w, id, DismissedBy(w.storage, w.tabs[id], id, permanent, w.now))
    case ForgetDismissals => w.(storage := w.storage.(dismissed := map[]))
    case Pass(later) => w.(now := later)
  }

  /** The next renewal of an owner is at most one period ahead, and not yet late by a period. */
  predicate DueFits(tab: Tab, now: int) {
    now < tab.due + RENEW_PERIOD && tab.due <= now + RENEW_PERIOD
  }

  /** Whoever owns the notice holds the stored lease, which outlives its next renewal by at least the allowed delay. */
  predicate Holds(storage: Storage, tab: Tab, id: nat, now: int) {
    && storage.owner.Some? && storage.owner.value.id == id
    && DueFits(tab, now) && tab.due + RENEW_PERIOD <= storage.owner.value.expiresAt
  }

  ghost predicate Invariant(w: World) {
    forall id :: id in w.tabs && w.tabs[id].owns ==> Holds(w.storage, w.tabs[id], id, w.now)
  }

  /** The rendered identity is that of the offered candidate. */
  predicate RenderedFits(tab: Tab) {
    tab.identity.Some? ==> tab.offered.Some? && tab.identity.value == tab.offered.value.identity
  }

  ghost predicate Rendered(w: World) {
    forall id :: id in w.tabs ==> RenderedFits(w.tabs[id])
  }

  /** What a handler of tab `id` may do: take a lease that is free or its own, and leave its tab in order. */
  predicate Permitted(storage: Storage, id: nat, now: int, result: (Storage, Tab)) {
    && (result.0.owner == storage.owner || LeaseFree(storage, id, now))
    && (result.1.owns ==> Holds(result.0, result.1, id, now))
    && RenderedFits(result.1)
  }

  lemma EvaluatedIsPermitted(storage: Storage, tab: Tab, id: nat, now: int)
    requires tab.owns ==> DueFits(tab, now)
    ensures Permitted(storage, id, now, Evaluated(storage, tab, id, now))
  {
  }

  lemma VisibilityIsPermitted(storage: Storage, tab: Tab, id: nat, visible: bool, now: int)
    requires tab.owns ==> DueFits(tab, now)
    ensures Permitted(storage, id, now, VisibilitySet(storage, tab, id, visible, now))
  {
  }

  lemma OfferIsPermitted(storage: Storage, tab: Tab, id: nat, offered: Option<Candidate>, now: int)
    requires tab.owns ==> Holds(storage, tab, id, now)
    ensures Permitted(storage, id, now, Offered(storage, tab, id, offered, now))
  {
  }

  lemma DismissalIsPermitted(storage: Storage, tab: Tab, id: nat, permanent: bool, now: int)
    requires tab.offered.Some? && tab.identity.Some? && tab.owns && Holds(storage, tab, id, now)
    ensures Permitted(storage, id, now, DismissedBy(storage, tab, id, permanent, now))
  {
  }

  lemma PermittedKeepsInvariant(w: World, id: nat, result: (Storage, Tab))
    requires Invariant(w) && Rendered(w) && Permitted(w.storage, id, w.now, result)
    ensures Invariant(With(w, id, result)) && Rendered(With(w, id, result))
  {
    var t := With(w, id, result);
    forall other | other in t.tabs && t.tabs[other].owns ensures Holds(t.storage, t.tabs[other], other, t.now) {
      if other != id { assert Holds(w.storage, w.tabs[other], other, w.now); }
    }
  }

  /** Every step keeps the lease with the owner: nobody else's evaluation, hiding, dismissal or renewal disturbs it. */
  lemma StepKeepsInvariant(w: World, step: Step)
    requires Invariant(w) && Rendered(w) && Possible(w, step) && Timely(w, step)
    ensures Invariant(Next(w, step)) && Rendered(Next(w, step))
  {
    hide Evaluated, VisibilitySet, Offered, DismissedBy, Permitted;
    match step
    case Tick(id) =>
      EvaluatedIsPermitted(w.storage, w.tabs[id], id, w.now);
      PermittedKeepsInvariant(w, id, Evaluated(w.storage, w.tabs[id], id, w.now));
    case Offer(id, candidate) =>
      OfferIsPermitted(w.storage, w.tabs[id], id, candidate, w.now);
      PermittedKeepsInvariant(w, id, Offered(w.storage, w.tabs[id], id, candidate, w.now));
    case Visibility(id, shown) =>
      VisibilityIsPermitted(w.storage, w.tabs[id], id, shown, w.now);
      PermittedKeepsInvariant(w, id, VisibilitySet(w.storage, w.tabs[id], id, shown, w.now));
    case Dismiss(id, permanent) =>
      DismissalIsPermitted(w.storage, w.tabs[id], id, permanent, w.now);
      PermittedKeepsInvariant(w, id, DismissedBy(w.storage, w.tabs[id], id, permanent, w.now));
    case _ =>
  }

  ghost predicate Feasible(w: World, steps: seq<Step>)
    decreases |steps|
  {
    steps == [] || (Possible(w, steps[0]) && Timely(w, steps[0]) && Feasible(Next(w, steps[0]), steps[1..]))
  }

  ghost function Run(w: World, steps: seq<Step>): World
    requires Feasible(w, steps)
    decreases |steps|
  {
    if steps == [] then w else Run(Next(w, steps[0]), steps[1..])
  }

  lemma {:induction false} RunKeepsInvariant(w: World, steps: seq<Step>)
    requires Feasible(w, steps) && Invariant(w) && Rendered(w)
    ensures Invariant(Run(w, steps)) && Rendered(Run(w, steps))
    decreases |steps|
  {
    hide Invariant, Rendered, Next, Possible, Timely;
    if steps != [] {
      StepKeepsInvariant(w, steps[0]);
      RunKeepsInvariant(Next(w, steps[0]), steps[1..]);
    }
  }

  /**
   For any number of tabs and any timely run from any stored contents: at most one tab shows the notice, and a tab that
   shows it holds the stored lease, which has not expired.
   */
  lemma AtMostOneTabShows(now: int, storage: Storage, steps: seq<Step>, a: nat, b: nat)
    requires Feasible(World(now, storage, map[]), steps)
    requires var w := Run(World(now, storage, map[]), steps);
             a in w.tabs && Showing(w.tabs[a]) && b in w.tabs && Showing(w.tabs[b])
    ensures a == b
    ensures var w := Run(World(now, storage, map[]), steps);
            w.storage.owner.Some? && w.storage.owner.value.id == a && w.now < w.storage.owner.value.expiresAt
  {
    RunKeepsInvariant(World(now, storage, map[]), steps);
    var w := Run(World(now, storage, map[]), steps);
    assert Holds(w.storage, w.tabs[a], a, w.now) && Holds(w.storage, w.tabs[b], b, w.now);
  }

  /** The user does not want to see this candidate now: it was dismissed for good, or its snooze is not over. */
  predicate Suppressed(storage: Storage, candidate: Candidate, now: int) {
    || (candidate.kind in storage.dismissed && storage.dismissed[candidate.kind] == candidate.identity)
    || (storage.snooze.Some? && storage.snooze.value.identity == candidate.identity && now < storage.snooze.value.until)
  }

  /** Another tab holds a lease that has not expired. */
  predicate HeldByOther(storage: Storage, id: nat, now: int) {
    storage.owner.Some? && storage.owner.value.id != id && now < storage.owner.value.expiresAt
  }

  predicate Shows(tab: Tab, candidate: Candidate) {
    Showing(tab) && tab.offered == Some(candidate)
  }

  predicate ShownIsWanted(storage: Storage, tab: Tab, now: int) {
    tab.owns ==>
      && tab.visible && tab.offered.Some? && tab.identity == Some(tab.offered.value.identity)
      && !Suppressed(storage, tab.offered.value, now)
  }

  /** Whatever is shown is shown in a visible tab and is neither dismissed nor snoozed. */
  ghost predicate OnlyWanted(w: World) {
    forall id :: id in w.tabs ==> ShownIsWanted(w.storage, w.tabs[id], w.now)
  }

  /**
   The effect shows the notice exactly in a visible tab, for a candidate that is not suppressed, under a lease that no
   other tab holds.
   */
  lemma EvaluationShowsExactlyWhen(storage: Storage, tab: Tab, id: nat, now: int)
    ensures var (after, shown) := Evaluated(storage, tab, id, now);
            && (shown.owns <==> && tab.visible && tab.offered.Some? && !Suppressed(storage, tab.offered.value, now)
                                && !HeldByOther(storage, id, now))
            && (shown.owns ==> shown.identity == Some(tab.offered.value.identity))
            && shown.visible == tab.visible && shown.offered == tab.offered
            && after.dismissed == storage.dismissed && after.snooze == storage.snooze
  {
  }

  lemma HandlersShowOnlyWanted(w: World, step: Step, id: nat)
    requires OnlyWanted(w) && Possible(w, step) && id in w.tabs
    requires match step
             case Tick(i) => i == id
             case Offer(i, _) => i == id
             case Visibility(i, _) => i == id
             case Renew(i, _) => i == id
             case Dismiss(i, _) => i == id
             case _ => false
    ensures id in Next(w, step).tabs && ShownIsWanted(Next(w, step).storage, Next(w, step).tabs[id], w.now)
    ensures !step.Dismiss? ==>
        Next(w, step).storage.dismissed == w.storage.dismissed && Next(w, step).storage.snooze == w.storage.snooze
  {
    assert ShownIsWanted(w.storage, w.tabs[id], w.now);
    var storage, tab, t := w.storage, w.tabs[id], Next(w, step);
    match step
    case Tick(_) => EvaluationShowsExactlyWhen(storage, tab, id, w.now);
    case Offer(_, offered) => EvaluationShowsExactlyWhen(storage, tab.(offered := offered), id, w.now);
    case Visibility(_, visible) =>
      var left := if visible then storage else Released(storage, id);
      EvaluationShowsExactlyWhen(left, tab.(visible := visible), id, w.now);
    case Dismiss(_, permanent) => ButtonSuppresses(w, id, permanent);
    case _ =>
  }

  /**
   Each button suppresses in its own way: dismissing marks the candidate's kind for good and leaves the snooze, snoozing
   marks its identity for an hour and leaves the dismissals; both hide the notice and give the lease up.
   */
  lemma ButtonSuppresses(w: World, id: nat, permanent: bool)
    requires OnlyWanted(w) && Possible(w, Dismiss(id, permanent))
    ensures var t := Next(w, Dismiss(id, permanent));
            var candidate := w.tabs[id].offered.value;
            && t.storage.owner == None && !t.tabs[id].owns && t.now == w.now
            && Suppressed(t.storage, candidate, w.now)
            && (permanent ==>
                  && t.storage.dismissed == w.storage.dismissed[candidate.kind := candidate.identity]
                  && t.storage.snooze == w.storage.snooze)
            && (!permanent ==>
                  && t.storage.snooze == Some(Snooze(candidate.identity, w.now + 3600000))
                  && t.storage.dismissed == w.storage.dismissed)
  {
    assert ShownIsWanted(w.storage, w.tabs[id], w.now);
    var t := Next(w, Dismiss(id, permanent));
    assert !permanent ==> t.storage.snooze == Some(Snooze(w.tabs[id].identity.value, w.now + 3600000));
  }

  lemma StepShowsOnlyWanted(w: World, step: Step)
    requires OnlyWanted(w) && Invariant(w) && Possible(w, step)
    ensures OnlyWanted(Next(w, step))
  {
    var t := Next(w, step);
    forall other | other in t.tabs ensures ShownIsWanted(t.storage, t.tabs[other], t.now) {
      assert other in w.tabs ==> ShownIsWanted(w.storage, w.tabs[other], w.now);
      match step
      case Mount(_, _) =>
      case Unmount(_) =>
      case ForgetDismissals =>
      case Pass(_) =>
      case Dismiss(id, _) =>
        HandlersShowOnlyWanted(w, step, id);
        if other != id { OnlyOneOwns(w, id, other); }
      case _ => HandlersShowOnlyWanted(w, step, step.id);
    }
  }

  lemma OnlyOneOwns(w: World, a: nat, b: nat)
    requires Invariant(w) && a in w.tabs && b in w.tabs && w.tabs[a].owns && a != b
    ensures !w.tabs[b].owns
  {
    assert Holds(w.storage, w.tabs[a], a, w.now);
    assert w.tabs[b].owns ==> Holds(w.storage, w.tabs[b], b, w.now);
  }

  /** The invariants of every timely run. */
  ghost predicate Sound(w: World) {
    Invariant(w) && Rendered(w) && OnlyWanted(w)
  }

  lemma {:induction false} RunKeepsSound(w: World, steps: seq<Step>)
    requires Feasible(w, steps) && Sound(w)
    ensures Sound(Run(w, steps))
    decreases |steps|
  {
    hide Invariant, Rendered, OnlyWanted, Next, Possible, Timely;
    if steps != [] {
      StepKeepsInvariant(w, steps[0]);
      StepShowsOnlyWanted(w, steps[0]);
      RunKeepsSound(Next(w, steps[0]), steps[1..]);
    }
  }

  /** The step forgets the dismissal of this kind, or replaces it. */
  ghost predicate Redismisses(w: World, step: Step, kind: Kind)
    requires Possible(w, step)
  {
    step.ForgetDismissals? || (step.Dismiss? && step.permanent && w.tabs[step.id].offered.value.kind == kind)
  }

  ghost predicate KeepsDismissal(w: World, steps: seq<Step>, kind: Kind)
    requires Feasible(w, steps)
    decreases |steps|
  {
    steps == [] || (!Redismisses(w, steps[0], kind) && KeepsDismissal(Next(w, steps[0]), steps[1..], kind))
  }

  ghost predicate Snoozes(steps: seq<Step>) {
    exists k :: 0 <= k < |steps| && steps[k].Dismiss? && !steps[k].permanent
  }

  lemma StepKeepsMarks(w: World, step: Step, kind: Kind)
    requires OnlyWanted(w) && Possible(w, step)
    ensures !Redismisses(w, step, kind) && kind in w.storage.dismissed ==>
        kind in Next(w, step).storage.dismissed && Next(w, step).storage.dismissed[kind] == w.storage.dismissed[kind]
    ensures !(step.Dismiss? && !step.permanent) ==> Next(w, step).storage.snooze == w.storage.snooze
  {
    match step
    case Mount(_, _) =>
    case Unmount(_) =>
    case ForgetDismissals =>
    case Pass(_) =>
    case Dismiss(id, permanent) => ButtonSuppresses(w, id, permanent);
    case _ => HandlersShowOnlyWanted(w, step, step.id);
  }

  lemma {:induction false} RunKeepsMarks(w: World, steps: seq<Step>, kind: Kind)
    requires Feasible(w, steps) && Sound(w)
    ensures KeepsDismissal(w, steps, kind) && kind in w.storage.dismissed ==>
        && kind in Run(w, steps).storage.dismissed
        && Run(w, steps).storage.dismissed[kind] == w.storage.dismissed[kind]
    ensures !Snoozes(steps) ==> Run(w, steps).storage.snooze == w.storage.snooze
    decreases |steps|
  {
    hide Invariant, Rendered, OnlyWanted, Next, Possible, Timely, Redismisses;
    if steps != [] {
      StepKeepsInvariant(w, steps[0]);
      StepShowsOnlyWanted(w, steps[0]);
      StepKeepsMarks(w, steps[0], kind);
      RunKeepsMarks(Next(w, steps[0]), steps[1..], kind);
      assert !Snoozes(steps) ==> !Snoozes(steps[1..]) by {
        assert forall k :: 0 <= k < |steps[1..]| ==> steps[1..][k] == steps[k + 1];
      }
    }
  }

  /** A world that a timely run reaches from some stored contents and no tabs. */
  ghost predicate Reached(w: World, now: int, storage: Storage, steps: seq<Step>) {
    Feasible(World(now, storage, map[]), steps) && w == Run(World(now, storage, map[]), steps)
  }

  /** In every timely run, what is shown is shown in a visible tab and is neither dismissed nor snoozed. */
  lemma EveryShownNoticeIsWanted(w: World, now: int, storage: Storage, steps: seq<Step>, id: nat)
    requires Reached(w, now, storage, steps) && id in w.tabs && Showing(w.tabs[id])
    ensures w.tabs[id].visible && w.tabs[id].offered.Some?
    ensures w.tabs[id].identity == Some(w.tabs[id].offered.value.identity)
    ensures !Suppressed(w.storage, w.tabs[id].offered.value, w.now)
  {
    RunKeepsSound(World(now, storage, map[]), steps);
    assert ShownIsWanted(w.storage, w.tabs[id], w.now);
  }

  /**
   What dismissing for good achieves, over every timely run before and after: from then on no tab shows that candidate,
   however often tabs open, refresh and take the lease, unless the dismissals are forgotten or another one of the same
   kind replaces this one. Once they are forgotten, a visible tab that is offered it shows it again, unless it is
   snoozed or another tab holds the lease.
   */
  lemma DismissedCandidateIsNotShown(w: World, now: int, storage: Storage, before: seq<Step>, id: nat, after: seq<Step>,
      tab: nat)
    requires Reached(w, now, storage, before) && Possible(w, Dismiss(id, true))
    requires Feasible(Next(w, Dismiss(id, true)), after)
        && KeepsDismissal(Next(w, Dismiss(id, true)), after, w.tabs[id].offered.value.kind)
    requires tab in Run(Next(w, Dismiss(id, true)), after).tabs
    ensures var t := Run(Next(w, Dismiss(id, true)), after);
            var candidate := w.tabs[id].offered.value;
            && !Shows(t.tabs[tab], candidate) && !Shows(Next(t, Tick(tab)).tabs[tab], candidate)
            && (t.tabs[tab].offered == Some(candidate) && t.tabs[tab].visible ==>
                  var forgotten := Next(t, ForgetDismissals);
                  Shows(Next(forgotten, Tick(tab)).tabs[tab], candidate)
                  <==> !Snoozed(t.storage, candidate.identity, t.now) && !HeldByOther(t.storage, tab, t.now))
  {
    RunKeepsSound(World(now, storage, map[]), before);
    StepKeepsInvariant(w, Dismiss(id, true));
    StepShowsOnlyWanted(w, Dismiss(id, true));
    ButtonSuppresses(w, id, true);
    var t0 := Next(w, Dismiss(id, true));
    RunKeepsSound(t0, after);
    RunKeepsMarks(t0, after, w.tabs[id].offered.value.kind);
    var t := Run(t0, after);
    hide Run, Feasible, KeepsDismissal;
    assert ShownIsWanted(t.storage, t.tabs[tab], t.now);
    EvaluationShowsExactlyWhen(t.storage, t.tabs[tab], tab, t.now);
    EvaluationShowsExactlyWhen(t.storage.(dismissed := map[]), t.tabs[tab], tab, t.now);
  }

  /**
   What snoozing achieves, over every timely run before and after: as long as no other snooze replaces it, no tab shows
   a candidate of that identity before an hour has passed; and from then on, and not earlier, a visible tab that is
   offered it, undismissed and with the lease free, takes the notice at its next rendering.
   */
  lemma SnoozedNoticeReturnsExactlyAfterAnHour(w: World, now: int, storage: Storage, before: seq<Step>, id: nat,
      after: seq<Step>, tab: nat)
    requires Reached(w, now, storage, before) && Possible(w, Dismiss(id, false))
    requires Feasible(Next(w, Dismiss(id, false)), after) && !Snoozes(after)
    requires tab in Run(Next(w, Dismiss(id, false)), after).tabs
    requires var offered := Run(Next(w, Dismiss(id, false)), after).tabs[tab].offered;
             offered.Some? && offered.value.identity == w.tabs[id].offered.value.identity
    ensures var t := Run(Next(w, Dismiss(id, false)), after);
            && (t.now < w.now + 3600000 ==> !Showing(t.tabs[tab]))
            && (Showing(Next(t, Tick(tab)).tabs[tab])
                <==> && w.now + 3600000 <= t.now && t.tabs[tab].visible && !HeldByOther(t.storage, tab, t.now)
                     && EligibleIdentity(t.storage, t.tabs[tab].offered).Some?)
  {
    RunKeepsSound(World(now, storage, map[]), before);
    StepKeepsInvariant(w, Dismiss(id, false));
    StepShowsOnlyWanted(w, Dismiss(id, false));
    ButtonSuppresses(w, id, false);
    var t0 := Next(w, Dismiss(id, false));
    RunKeepsSound(t0, after);
    RunKeepsMarks(t0, after, Stable);
    var t := Run(t0, after);
    assert ShownIsWanted(t.storage, t.tabs[tab], t.now);
    EvaluationShowsExactlyWhen(t.storage, t.tabs[tab], tab, t.now);
  }

  /** The visibility and the offer that a tab was last told, if it is mounted. */
  ghost function Told(told: Option<(bool, Option<Candidate>)>, steps: seq<Step>, id: nat):
      Option<(bool, Option<Candidate>)>
    decreases |steps|
  {
    if steps == [] then told
    else
      var next :=
        match steps[0]
        case Mount(i, shown) => if i == id then Some((shown, None)) else told
        case Unmount(i) => if i == id then None else told
        case Visibility(i, shown) => if i == id && told.Some? then Some((shown, told.value.1)) else told
        case Offer(i, offered) => if i == id && told.Some? then Some((told.value.0, offered)) else told
        case _ => told;
      Told(next, steps[1..], id)
  }

  ghost function Inputs(w: World, id: nat): Option<(bool, Option<Candidate>)> {
    if id in w.tabs then Some((w.tabs[id].visible, w.tabs[id].offered)) else None
  }

  lemma StepTells(w: World, step: Step, id: nat)
    requires Possible(w, step)
    ensures Inputs(Next(w, step), id) == Told(Inputs(w, id), [step], id)
  {
    assert [step][1..] == [];
    assert forall told :: Told(told, [], id) == told;
  }

  /** Every tab goes by what it was last told of its own visibility and candidate, whatever other tabs do. */
  lemma {:induction false} TabsGoByWhatTheyWereTold(w: World, steps: seq<Step>, id: nat)
    requires Feasible(w, steps)
    ensures Inputs(Run(w, steps), id) == Told(Inputs(w, id), steps, id)
    decreases |steps|
  {
    hide Inputs, Next, Possible, Timely;
    if steps != [] {
      StepTells(w, steps[0], id);
      TabsGoByWhatTheyWereTold(Next(w, steps[0]), steps[1..], id);
      assert Told(Told(Inputs(w, id), [steps[0]], id), steps[1..], id) == Told(Inputs(w, id), steps, id) by {
        assert [steps[0]][1..] == [];
      }
    }
  }

  /**
   Handing over: once the tab that shows the notice is hidden or closed, or one of its buttons was pressed, any other
   visible tab takes the notice at its next rendering exactly when its own candidate is not suppressed; before, it
   does not.
   */
  lemma NoticeIsHandedOver(w: World, a: nat, step: Step, b: nat)
    requires Sound(w) && a in w.tabs && Showing(w.tabs[a]) && Possible(w, step)
    requires step == Unmount(a) || step == Visibility(a, false) || (step.Dismiss? && step.id == a)
    requires b in w.tabs && b != a && w.tabs[b].visible && w.tabs[b].offered.Some?
    ensures !Showing(Next(w, Tick(b)).tabs[b])
    ensures var t := Next(w, step);
            && b in t.tabs && (a in t.tabs ==> !Showing(t.tabs[a]))
            && (Showing(Next(t, Tick(b)).tabs[b]) <==> !Suppressed(t.storage, t.tabs[b].offered.value, t.now))
  {
    assert Holds(w.storage, w.tabs[a], a, w.now);
    EvaluationShowsExactlyWhen(w.storage, w.tabs[b], b, w.now);
    var t := Next(w, step);
    if step.Dismiss? { ButtonSuppresses(w, a, step.permanent); }
    EvaluationShowsExactlyWhen(t.storage, t.tabs[b], b, t.now);
  }

  /**
   The rhythm of renewals: a notice newly shown is due for renewal after ten seconds, only a renewal of its own moves
   that, and a renewal keeps the lease for twenty more seconds.
   */
  lemma RenewalsAreScheduledOnce(w: World, step: Step, id: nat)
    requires Possible(w, step) && id in w.tabs && id in Next(w, step).tabs && Showing(Next(w, step).tabs[id])
    ensures var was, tab := w.tabs[id], Next(w, step).tabs[id];
            if step.Renew? && step.id == id then
              tab.due == step.next && Next(w, step).storage.owner == Some(Lease(id, w.now + 20000))
            else
              tab.due == if was.owns && was.identity == tab.identity then was.due else w.now + 10000
  {
  }

  /**
   A lease ends early only by its holder: by hiding or closing its tab, or by a button of its notice. A refresh that
   brings no new identity leaves everything stored and shown as it is.
   */
  lemma LeaseEndsEarlyOnlyByItsHolder(w: World, step: Step)
    requires Sound(w) && Possible(w, step) && w.storage.owner.Some?
    ensures var holder := w.storage.owner.value.id;
            var owner := Next(w, step).storage.owner;
            && (step == Unmount(holder) || step == Visibility(holder, false) || (step.Dismiss? && step.id == holder)
                <==> owner == None)
            && (owner.Some? && owner.value.id != holder ==> w.storage.owner.value.expiresAt <= w.now)
    ensures step.Offer? && EligibleIdentity(w.storage, step.candidate) == w.tabs[step.id].identity ==>
              Next(w, step).storage == w.storage
                  && Showing(Next(w, step).tabs[step.id]) == Showing(w.tabs[step.id])
  {
    if step.Dismiss? {
      assert Holds(w.storage, w.tabs[step.id], step.id, w.now);
      ButtonSuppresses(w, step.id, step.permanent);
    }
    if step.Renew? { assert Holds(w.storage, w.tabs[step.id], step.id, w.now); }
  }

  /**
   The effect depends on the identity: once a tab has rendered, and however much time passes, a refresh that offers the
   same candidate changes nothing, whether the notice is shown or not; only the next tick looks at the lease again.
   */
  lemma RefreshedCandidateChangesNothing(w: World, id: nat, later: int)
    requires id in w.tabs && w.now <= later
    ensures var waiting := Next(Next(w, Tick(id)), Pass(later));
            Next(waiting, Offer(id, w.tabs[id].offered)) == waiting
  {
    var waiting := Next(Next(w, Tick(id)), Pass(later));
    assert waiting.tabs[id := waiting.tabs[id]] == waiting.tabs;
  }

  /**
   Why timeliness is needed, exactly: a second visible tab whose candidate is neither dismissed nor snoozed takes the
   notice from a tab that still shows it if and only if the clock has reached the stored expiry.
   */
  lemma SecondTabEntersExactlyAtExpiry(w: World, a: nat, b: nat, later: int)
    requires Invariant(w) && a in w.tabs && w.tabs[a].owns && b in w.tabs && a != b && w.now <= later
    requires w.tabs[b].visible && EligibleIdentity(w.storage, w.tabs[b].offered).Some?
    requires !Snoozed(w.storage, EligibleIdentity(w.storage, w.tabs[b].offered).value, later)
    ensures var t := Next(Next(w, Pass(later)), Tick(b));
            && t.tabs[a].owns
            && (t.tabs[b].owns <==> w.storage.owner.value.expiresAt <= later)
            && (t.tabs[b].owns ==> later >= w.tabs[a].due + RENEW_PERIOD)
  {
    assert Holds(w.storage, w.tabs[a], a, w.now);
  }

  /** A concrete run with one renewal ten seconds late, after which both tabs show the notice. */
  lemma LateRenewalShowsTwice()
    ensures var candidate := Some(Candidate(Stable, "stable:2"));
            var w0 := World(0, Storage(None, None, map[]), map[]);
            var w1 := Next(Next(w0, Mount(1, true)), Mount(2, true));
            var w2 := Next(Next(w1, Offer(1, candidate)), Offer(2, candidate));
            var w3 := Next(Next(w2, Pass(20000)), Tick(2));
            && !Timely(w2, Pass(20000))
            && Showing(w3.tabs[1]) && Showing(w3.tabs[2])
  {
    var candidate := Some(Candidate(Stable, "stable:2"));
    var w0 := World(0, Storage(None, None, map[]), map[]);
    var w1 := Next(Next(w0, Mount(1, true)), Mount(2, true));
    var w2 := Next(Next(w1, Offer(1, candidate)), Offer(2, candidate));
    assert w2.storage.owner == Some(Lease(1, 20000)) && w2.tabs[1].owns && w2.tabs[1].due == 10000;
    assert w2.tabs[2].visible && w2.tabs[2].offered == candidate;
  }
}
