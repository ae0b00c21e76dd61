/**
 The settings document editor: the DocumentController of settings-document-editor's `client.js`, and any number of such
 clients talking to one server that accepts a save only under the current revision.
 */
module SettingsDocument {
  import opened Wrappers

  type Content = string
  type Revision = nat

  /** The state a controller publishes. */
  datatype Document = Document(open: bool, loading: bool, saving: bool, content: Content, savedContent: Content,
                               revision: Option<Revision>, error: Option<string>, conflict: bool, confirmClose: bool)

  const CLOSED := Document(false, false, false, "", "", None, None, false, false)

  predicate Dirty(d: Document) {
    d.content != d.savedContent
  }

  predicate CanSave(d: Document) {
    !d.saving && !d.loading && d.revision.Some? && Dirty(d)
  }

  function ReloadStarted(d: Document): Document {
    d.(loading := true, error := None, conflict := false, confirmClose := false)
  }

  function Opened(d: Document): Document {
    if d.open then d
    else ReloadStarted(Document(true, true, d.saving, "", "", None, None, false, false))
  }

  function LoadedWith(d: Document, content: Content, revision: Revision): Document {
    d.(loading := false, content := content, savedContent := content, revision := Some(revision))
  }

  function LoadFailed(d: Document, error: string): Document {
    d.(loading := false, error := Some(error))
  }

  function Edited(d: Document, content: Content): Document {
    d.(content := content, error := None, conflict := false)
  }

  function ClosedNow(d: Document): Document {
    d.(open := false, confirmClose := false, error := None, conflict := false)
  }

  function CloseRequested(d: Document): Document {
    if d.saving then d else if Dirty(d) then d.(confirmClose := true) else ClosedNow(d)
  }

  function SaveStarted(d: Document): Document {
    if CanSave(d) then d.(saving := true, error := None, conflict := false) else d
  }

  function SavedWith(d: Document, content: Content, revision: Revision): Document {
    d.(saving := false, content := content, savedContent := content, revision := Some(revision))
  }

  function SaveFailed(d: Document, error: string, conflict: bool): Document {
    d.(saving := false, error := Some(error), conflict := conflict)
  }

  /** The body of a PUT request. */
  datatype SaveRequest = SaveRequest(content: Content, revision: Revision)

  class DocumentController {
    var listeners: set<nat>
    var state: Document
    var shown: map<nat, Document>   // the state each listener was last called with

    /** Every listener has seen the current state. */
    ghost predicate Informed()
      reads this
    {
      forall listener :: listener in listeners ==> listener in shown && shown[listener] == state
    }

    constructor ()
      ensures state == CLOSED && listeners == {}
    {
      listeners, state, shown := {}, CLOSED, map[];
    }

    method Subscribe(listener: nat)
      modifies this`listeners
      ensures listeners == old(listeners) + {listener}
    {
      listeners := listeners + {listener};
    }

    method Unsubscribe(listener: nat)
      modifies this`listeners
      ensures listeners == old(listeners) - {listener}
    {
      listeners := listeners - {listener};
    }

    method Publish(next: Document)
      modifies this`state, this`shown
      ensures state == next && Informed()
    {
      state := next;
      var remaining := listeners;
      while remaining != {}
        invariant remaining <= listeners && state == next
        invariant forall listener :: listener in listeners - remaining ==> listener in shown && shown[listener] == state
        decreases |remaining|
      {
        var listener :| listener in remaining;
        shown := shown[listener := state];
        remaining := remaining - {listener};
      }
    }

    /** open, up to the request that its reload sends. */
    method Open() returns (fetches: bool)
      modifies this`state, this`shown
      ensures state == Opened(old(state)) && fetches == !old(state.open)
      ensures fetches ==> Informed()
    {
      if state.open { return false; }
      Publish(state.(open := true, loading := true, content := "", savedContent := "", revision := None,
                     error := None, conflict := false, confirmClose := false));
      Reload();
      return true;
    }

    method Reload()
      modifies this`state, this`shown
      ensures state == ReloadStarted(old(state)) && Informed()
    {
      Publish(state.(loading := true, error := None, conflict := false, confirmClose := false));
    }

    method OnLoaded(content: Content, revision: Revision)
      modifies this`state, this`shown
      ensures state == LoadedWith(old(state), content, revision) && Informed()
    {
      Publish(state.(loading := false, content := content, savedContent := content, revision := Some(revision)));
    }

    method OnLoadFailed(error: string)
      modifies this`state, this`shown
      ensures state == LoadFailed(old(state), error) && Informed()
    {
      Publish(state.(loading := false, error := Some(error)));
    }

    method Edit(content: Content)
      modifies this`state, this`shown
      ensures state == Edited(old(state), content) && Informed()
    {
      Publish(state.(content := content, error := None, conflict := false));
    }

    method RequestClose()
      modifies this`state, this`shown
      ensures state == CloseRequested(old(state))
      ensures !state.saving ==> Informed()
    {
      if state.saving { return; }
      if state.content != state.savedContent {
        Publish(state.(confirmClose := true));
      } else {
        Close();
      }
    }

    method Close()
      modifies this`state, this`shown
      ensures state == ClosedNow(old(state)) && Informed()
    {
      Publish(state.(open := false, confirmClose := false, error := None, conflict := false));
    }

    /** save, up to the request it sends, if any. */
    method Save() returns (request: Option<SaveRequest>)
      modifies this`state, this`shown
      ensures state == SaveStarted(old(state))
      ensures request == if CanSave(old(state)) then Some(SaveRequest(old(state.content), old(state.revision.value)))
          else None
      ensures request.Some? ==> Informed()
    {
      if state.saving || state.loading || state.revision == None || state.content == state.savedContent { return None; }
      Publish(state.(saving := true, error := None, conflict := false));
      return Some(SaveRequest(state.content, state.revision.value));
    }

    method OnSaved(content: Content, revision: Revision)
      modifies this`state, this`shown
      ensures state == SavedWith(old(state), content, revision) && Informed()
    {
      Publish(state.(saving := false, content := content, savedContent := content, revision := Some(revision)));
    }

    method OnSaveFailed(error: string, status: int)
      modifies this`state, this`shown
      ensures state == SaveFailed(old(state), error, status == 409) && Informed()
    {
      Publish(state.(saving := false, error := Some(error), conflict := status == 409));
    }
  }

  /**
   A message under way. `base` is what the client held as savedContent when it sent the PUT. A Lost PUT is one whose
   client has already seen a network error; the server may still process it.
   */
  datatype Message =
    | Get(client: nat)
    | Contents(client: nat, content: Content, revision: Revision)
    | Put(client: nat, content: Content, revision: Revision, base: Content)
    | Accepted(client: nat, content: Content, revision: Revision)
    | Refused(client: nat)
    | Lost(client: nat, content: Content, revision: Revision, base: Content)

  /** A change of the stored document: by an accepted save of a client, or by another writer. */
  datatype Write = Write(client: Option<nat>, base: Content, content: Content)

  /** `known` records which content every revision ever handed out stands for. */
  datatype World = World(clients: map<nat, Document>, net: map<nat, Message>, content: Content, revision: Revision,
                         known: map<Revision, Content>, log: seq<Write>)

  datatype Event =
    | Join(client: nat)
    | Open(client: nat, id: nat)
    | Reload(client: nat, id: nat)
    | Edit(client: nat, text: Content)
    | RequestClose(client: nat)
    | Close(client: nat)
    | Save(client: nat, id: nat)
    | Serve(id: nat, next: Revision)
    | Deliver(id: nat)
    | Fail(id: nat, error: string)
    | OtherWrite(text: Content, next: Revision)

  /** A revision is new, or it already stands for the same content, as the hash of a content would. */
  predicate MayStandFor(w: World, revision: Revision, content: Content) {
    revision in w.known ==> w.known[revision] == content
  }

  predicate Enabled(w: World, event: Event) {
    match event
    case Join(client) => client !in w.clients
    case Open(client, id) => client in w.clients && id !in w.net
    case Reload(client, id) => client in w.clients && id !in w.net
    case Edit(client, _) => client in w.clients
    case RequestClose(client) => client in w.clients
    case Close(client) => client in w.clients
    case Save(client, id) => client in w.clients && id !in w.net
    case Serve(id, next) =>
      && id in w.net && (w.net[id].Get? || w.net[id].Put? || w.net[id].Lost?)
      && (!w.net[id].Get? ==> MayStandFor(w, next, w.net[id].content))
    case Deliver(id) => id in w.net && (w.net[id].Contents? || w.net[id].Accepted? || w.net[id].Refused?)
        && w.net[id].client in w.clients
    case Fail(id, _) => id in w.net && !w.net[id].Lost? && w.net[id].client in w.clients
    case OtherWrite(text, next) => MayStandFor(w, next, text)
  }

  function Stored(w: World, client: Option<nat>, base: Content, content: Content, next: Revision): World {
    w.(content := content, revision := next, known := w.known[next := content],
       log := w.log + [Write(client, base, content)])
  }

  /** The server: it answers a GET with the current pair, and stores a PUT exactly when its revision is current. */
  function Served(w: World, id: nat, next: Revision): World
    requires id in w.net && (w.net[id].Get? || w.net[id].Put? || w.net[id].Lost?)
  {
    match w.net[id]
    case Get(client) => w.(net := w.net[id := Contents(client, w.content, w.revision)])
    case Put(client, content, revision, base) =>
      if revision != w.revision then w.(net := w.net[id := Refused(client)])
      else Stored(w, Some(client), base, content, next).(net := w.net[id := Accepted(client, content, next)])
    case Lost(client, content, revision, base) =>
      if revision != w.revision then w.(net := w.net - {id})
      else Stored(w, Some(client), base, content, next).(net := w.net - {id})
  }

  function Delivered(w: World, id: nat): World
    requires id in w.net && w.net[id].client in w.clients
  {
    var d := w.clients[w.net[id].client];
    var received :=
      match w.net[id]
      case Contents(_, content, revision) => LoadedWith(d, content, revision)
      case Accepted(_, content, revision) => SavedWith(d, content, revision)
      case Refused(_) => SaveFailed(d, "conflict", true)
      case _ => d;
    w.(clients := w.clients[w.net[id].client := received], net := w.net - {id})
  }

  function Failed(w: World, id: nat, error: string): World
    requires id in w.net && w.net[id].client in w.clients
  {
    var m := w.net[id];
    var d := w.clients[m.client];
    if m.Get? || m.Contents? then w.(clients := w.clients[m.client := LoadFailed(d, error)], net := w.net - {id})
    else
      var told := w.(clients := w.clients[m.client := SaveFailed(d, error, false)]);
      if m.Put? then told.(net := w.net[id := Lost(m.client, m.content, m.revision, m.base)])
      else told.(net := w.net - {id})
  }

  function Update(w: World, client: nat, d: Document): World {
    w.(clients := w.clients[client := d])
  }

  function Step(w: World, event: Event): World
    requires Enabled(w, event)
  {
    match event
    case Join(client) => Update(w, client, CLOSED)
    case Open(client, id) =>
      var shownAnew := Update(w, client, Opened(w.clients[client]));
      if w.clients[client].open then shownAnew else shownAnew.(net := w.net[id := Get(client)])
    case Reload(client, id) => Update(w, client, ReloadStarted(w.clients[client])).(net := w.net[id := Get(client)])
    case Edit(client, text) => Update(w, client, Edited(w.clients[client], text))
    case RequestClose(client) => Update(w, client, CloseRequested(w.clients[client]))
    case Close(client) => Update(w, client, ClosedNow(w.clients[client]))
    case Save(client, id) =>
      var d := w.clients[client];
      var started := Update(w, client, SaveStarted(d));
      if CanSave(d) then started.(net := w.net[id := Put(client, d.content, d.revision.value, d.savedContent)])
      else started
    case Serve(id, next) => Served(w, id, next)
    case Deliver(id) => Delivered(w, id)
    case Fail(id, error) => Failed(w, id, error)
    case OtherWrite(text, next) => Stored(w, None, w.content, text, next)
  }

  /** Message `id` is a save of `client` that the client has not heard about yet. */
  predicate SaveUnderWay(w: World, id: nat, client: nat) {
    id in w.net && w.net[id].client == client && (w.net[id].Put? || w.net[id].Accepted? || w.net[id].Refused?)
  }

  ghost predicate DocumentFits(known: map<Revision, Content>, d: Document) {
    d.revision.Some? ==> d.revision.value in known && known[d.revision.value] == d.savedContent
  }

  ghost predicate MessageFits(known: map<Revision, Content>, m: Message) {
    match m
    case Contents(_, content, revision) => revision in known && known[revision] == content
    case Accepted(_, content, revision) => revision in known && known[revision] == content
    case Put(_, _, revision, base) => revision in known && known[revision] == base
    case Lost(_, _, revision, base) => revision in known && known[revision] == base
    case _ => true
  }

  /** Every pair of content and revision that is held or under way is one that the server handed out. */
  ghost predicate PairsAreKnown(w: World) {
    && w.revision in w.known && w.known[w.revision] == w.content
    && (forall c :: c in w.clients ==> DocumentFits(w.known, w.clients[c]))
    && (forall id :: id in w.net ==> MessageFits(w.known, w.net[id]))
  }

  predicate Saving(w: World, client: nat) {
    client in w.clients && w.clients[client].saving
  }

  /** A client is saving exactly while one save of its is under way. */
  ghost predicate OneSaveEach(w: World) {
    && (forall id :: id in w.net ==> w.net[id].client in w.clients)
    && (forall i, j, c :: SaveUnderWay(w, i, c) && SaveUnderWay(w, j, c) ==> i == j)
    && (forall id, c :: SaveUnderWay(w, id, c) ==> Saving(w, c))
    && (forall c :: Saving(w, c) ==> exists id :: SaveUnderWay(w, id, c))
  }

  function ContentBefore(first: Content, log: seq<Write>, k: nat): Content
    requires k <= |log|
  {
    if k == 0 then first else log[k - 1].content
  }

  /** Every write replaced the content that its author knew, from the first content to the present one. */
  ghost predicate OneChain(w: World, first: Content) {
    && (forall k :: 0 <= k < |w.log| ==> w.log[k].base == ContentBefore(first, w.log, k))
    && w.content == ContentBefore(first, w.log, |w.log|)
  }

  lemma StoringKeepsPairs(w: World, client: Option<nat>, base: Content, content: Content, next: Revision)
    requires PairsAreKnown(w) && MayStandFor(w, next, content)
    ensures PairsAreKnown(Stored(w, client, base, content, next))
    ensures MessageFits(Stored(w, client, base, content, next).known, Accepted(0, content, next))
  {
    var t := Stored(w, client, base, content, next);
    assert forall revision :: revision in w.known ==> revision in t.known && t.known[revision] == w.known[revision];
  }

  lemma NewMessageKeepsPairs(w: World, id: nat, m: Message)
    requires PairsAreKnown(w) && MessageFits(w.known, m)
    ensures PairsAreKnown(w.(net := w.net[id := m])) && PairsAreKnown(w.(net := w.net - {id}))
  {
  }

  lemma NewStateKeepsPairs(w: World, client: nat, d: Document)
    requires PairsAreKnown(w) && DocumentFits(w.known, d)
    ensures PairsAreKnown(Update(w, client, d))
  {
  }

  lemma ServingKeepsPairs(w: World, id: nat, next: Revision)
    requires PairsAreKnown(w) && Enabled(w, Serve(id, next))
    ensures PairsAreKnown(Served(w, id, next))
  {
    var m := w.net[id];
    assert MessageFits(w.known, m) && MessageFits(w.known, Contents(m.client, w.content, w.revision));
    hide PairsAreKnown, DocumentFits;
    if m.Get? {
      NewMessageKeepsPairs(w, id, Contents(m.client, w.content, w.revision));
    } else if m.revision != w.revision {
      NewMessageKeepsPairs(w, id, Refused(m.client));
    } else {
      var t := Stored(w, Some(m.client), m.base, m.content, next);
      StoringKeepsPairs(w, Some(m.client), m.base, m.content, next);
      NewMessageKeepsPairs(t, id, Accepted(m.client, m.content, next));
    }
  }

  /** Every reply and failure leaves its client with a pair that the server handed out. */
  lemma AnswersKeepPairs(w: World, event: Event)
    requires PairsAreKnown(w) && Enabled(w, event) && (event.Deliver? || event.Fail?)
    ensures PairsAreKnown(Step(w, event))
  {
    var id := event.id;
    var m, t := w.net[id], Step(w, event);
    assert DocumentFits(w.known, w.clients[m.client]) && MessageFits(w.known, m);
    assert DocumentFits(w.known, t.clients[m.client]);
    hide PairsAreKnown, DocumentFits, MessageFits;
    NewStateKeepsPairs(w, m.client, t.clients[m.client]);
    NewMessageKeepsPairs(Update(w, m.client, t.clients[m.client]), id, if id in t.net then t.net[id] else m);
  }

  /** A client shows and sends only such pairs. */
  lemma ClientsKeepPairs(w: World, client: nat, event: Event)
    requires PairsAreKnown(w) && Enabled(w, event) && client in w.clients
    requires match event
             case Open(c, _) => c == client
             case Reload(c, _) => c == client
             case Edit(c, _) => c == client
             case RequestClose(c) => c == client
             case Close(c) => c == client
             case Save(c, _) => c == client
             case _ => false
    ensures PairsAreKnown(Step(w, event))
  {
    var t := Step(w, event);
    assert DocumentFits(w.known, w.clients[client]);
    assert DocumentFits(w.known, t.clients[client]);
    NewStateKeepsPairs(w, client, t.clients[client]);
    var updated := Update(w, client, t.clients[client]);
    if (event.Open? || event.Reload? || event.Save?) && event.id in t.net {
      NewMessageKeepsPairs(updated, event.id, t.net[event.id]);
    }
    hide PairsAreKnown;
    assert t == updated || (event.id in t.net && t == updated.(net := updated.net[event.id := t.net[event.id]]));
  }

  lemma StepKeepsPairs(w: World, event: Event)
    requires PairsAreKnown(w) && Enabled(w, event)
    ensures PairsAreKnown(Step(w, event))
  {
    match event
    case Join(client) => NewStateKeepsPairs(w, client, CLOSED);
    case Serve(id, next) => ServingKeepsPairs(w, id, next);
    case Deliver(_) => AnswersKeepPairs(w, event);
    case Fail(_, _) => AnswersKeepPairs(w, event);
    case OtherWrite(text, next) => StoringKeepsPairs(w, None, w.content, text, next);
    case _ => ClientsKeepPairs(w, event.client, event);
  }

  lemma ContentBeforeInLongerLog(first: Content, log: seq<Write>, write: Write, k: nat)
    requires k <= |log|
    ensures ContentBefore(first, log + [write], k) == ContentBefore(first, log, k)
    ensures ContentBefore(first, log + [write], |log| + 1) == write.content
  {
  }

  lemma StoringKeepsChain(w: World, client: Option<nat>, content: Content, next: Revision, first: Content)
    requires OneChain(w, first)
    ensures OneChain(Stored(w, client, w.content, content, next), first)
  {
    hide ContentBefore;
    var write := Write(client, w.content, content);
    var log := w.log + [write];
    forall k | 0 <= k < |log| ensures log[k].base == ContentBefore(first, log, k) {
      ContentBeforeInLongerLog(first, w.log, write, k);
    }
    ContentBeforeInLongerLog(first, w.log, write, 0);
  }

  /** The server stores a save only while its base is the present content, so the log stays one chain. */
  lemma StepKeepsChain(w: World, event: Event, first: Content)
    requires PairsAreKnown(w) && OneChain(w, first) && Enabled(w, event)
    ensures OneChain(Step(w, event), first)
  {
    if event.OtherWrite? {
      StoringKeepsChain(w, None, event.text, event.next, first);
    } else if event.Serve? {
      var m := w.net[event.id];
      assert MessageFits(w.known, m);
      if !m.Get? && m.revision == w.revision { StoringKeepsChain(w, Some(m.client), m.content, event.next, first); }
      hide PairsAreKnown;
    } else {
      hide PairsAreKnown;
      assert Step(w, event).log == w.log && Step(w, event).content == w.content;
    }
  }

  /** How a step to `t` changes which saves are under way and who is saving. */
  ghost predicate SavesChange(w: World, event: Event, t: World, id: nat, c: nat)
    requires Enabled(w, event)
  {
    var begins := event.Save? && event.client == c && CanSave(w.clients[c]);
    var ends := (event.Deliver? || event.Fail?) && SaveUnderWay(w, event.id, c);
    && (SaveUnderWay(t, id, c) <==> (SaveUnderWay(w, id, c) && !(ends && event.id == id)) || (begins && event.id == id))
    && (Saving(t, c) <==> (Saving(w, c) && !ends) || begins)
  }

  lemma SavesOfServing(w: World, event: Event, id: nat, c: nat)
    requires OneSaveEach(w) && Enabled(w, event) && event.Serve?
    ensures SavesChange(w, event, Step(w, event), id, c)
  {
  }

  lemma SavesOfDelivery(w: World, event: Event, id: nat, c: nat)
    requires OneSaveEach(w) && Enabled(w, event) && event.Deliver?
    ensures SavesChange(w, event, Step(w, event), id, c)
  {
    assert SaveUnderWay(w, event.id, w.net[event.id].client) || w.net[event.id].Contents?;
  }

  lemma SavesOfFailure(w: World, event: Event, id: nat, c: nat)
    requires OneSaveEach(w) && Enabled(w, event) && event.Fail?
    ensures SavesChange(w, event, Step(w, event), id, c)
  {
  }

  lemma SavesOfClient(w: World, event: Event, id: nat, c: nat)
    requires OneSaveEach(w) && Enabled(w, event) && !event.Serve? && !event.Deliver? && !event.Fail?
    ensures SavesChange(w, event, Step(w, event), id, c)
  {
  }

  /** How one step changes which saves are under way and who is saving. */
  lemma SavesOfOneStep(w: World, event: Event, id: nat, c: nat)
    requires OneSaveEach(w) && Enabled(w, event)
    ensures SavesChange(w, event, Step(w, event), id, c)
  {
    hide OneSaveEach, Step, SavesChange;
    match event
    case Serve(_, _) => SavesOfServing(w, event, id, c);
    case Deliver(_) => SavesOfDelivery(w, event, id, c);
    case Fail(_, _) => SavesOfFailure(w, event, id, c);
    case _ => SavesOfClient(w, event, id, c);
  }

  lemma MessagesKeepTheirClients(w: World, event: Event)
    requires OneSaveEach(w) && Enabled(w, event)
    ensures var t := Step(w, event); forall id :: id in t.net ==> t.net[id].client in t.clients
  {
  }

  /** A client that is saving has a save under way: the one it had, or the one that this step began. */
  lemma SavingHasASave(w: World, event: Event, c: nat)
    requires OneSaveEach(w) && Enabled(w, event) && Saving(Step(w, event), c)
    ensures exists id :: SaveUnderWay(Step(w, event), id, c)
  {
    hide Step, Enabled, SaveUnderWay, Saving, CanSave;
    SavesOfOneStep(w, event, 0, c);
    if Saving(w, c) {
      var id :| SaveUnderWay(w, id, c);
      SavesOfOneStep(w, event, id, c);
    } else {
      SavesOfOneStep(w, event, event.id, c);
    }
  }

  lemma StepKeepsOneSave(w: World, event: Event)
    requires OneSaveEach(w) && Enabled(w, event)
    ensures OneSaveEach(Step(w, event))
  {
    var t := Step(w, event);
    MessagesKeepTheirClients(w, event);
    hide Step, Enabled, SaveUnderWay, Saving, CanSave;
    forall i, j, c | SaveUnderWay(t, i, c) && SaveUnderWay(t, j, c) ensures i == j {
      SavesOfOneStep(w, event, i, c);
      SavesOfOneStep(w, event, j, c);
    }
    forall id, c | SaveUnderWay(t, id, c) ensures Saving(t, c) {
      SavesOfOneStep(w, event, id, c);
    }
    forall c | Saving(t, c) ensures exists id :: SaveUnderWay(t, id, c) {
      SavingHasASave(w, event, c);
    }
  }

  ghost predicate Feasible(w: World, events: seq<Event>)
    decreases |events|
  {
    events == [] || (Enabled(w, events[0]) && Feasible(Step(w, events[0]), events[1..]))
  }

  ghost function Run(w: World, events: seq<Event>): World
    requires Feasible(w, events)
    decreases |events|
  {
    if events == [] then w else Run(Step(w, events[0]), events[1..])
  }

  /** The server with a first document, before any client has opened it. */
  function Start(content: Content, revision: Revision): World {
    World(map[], map[], content, revision, map[revision := content], [])
  }

  ghost predicate Invariant(w: World, first: Content) {
    PairsAreKnown(w) && OneChain(w, first) && OneSaveEach(w)
  }

  lemma {:induction false} RunKeepsInvariant(w: World, events: seq<Event>, first: Content)
    requires Feasible(w, events) && Invariant(w, first)
    ensures Invariant(Run(w, events), first)
    decreases |events|
  {
    hide PairsAreKnown, OneChain, OneSaveEach, Step, Enabled;
    if events != [] {
      StepKeepsPairs(w, events[0]);
      StepKeepsChain(w, events[0], first);
      StepKeepsOneSave(w, events[0]);
      RunKeepsInvariant(Step(w, events[0]), events[1..], first);
    }
  }

  /**
   No lost update: for any number of clients and writers and any delays, failures and orders of messages, the writes
   form one chain from the first content to the present one, each accepted save replacing exactly the content that its
   client held as savedContent when it sent the request; and every client has at most one save outstanding.
   */
  lemma AcceptedSavesFormOneChain(content: Content, revision: Revision, events: seq<Event>)
    requires Feasible(Start(content, revision), events)
    ensures var w := Run(Start(content, revision), events);
            && (forall k :: 0 <= k < |w.log| ==> w.log[k].base == ContentBefore(content, w.log, k))
            && w.content == ContentBefore(content, w.log, |w.log|)
            && (forall i, j, c :: SaveUnderWay(w, i, c) && SaveUnderWay(w, j, c) ==> i == j)
            && (forall c :: Saving(w, c) <==> exists id :: SaveUnderWay(w, id, c))
  {
    RunKeepsInvariant(Start(content, revision), events, content);
  }

  /**
   What a save does, in any reachable world: the request carries what the client shows and the revision it holds, which
   stands for its savedContent; and the server stores it exactly when that revision is still the current one, in which
   case that savedContent is the content it replaces.
   */
  lemma SaveReplacesWhatItsClientHeld(content: Content, revision: Revision, events: seq<Event>, client: nat, id: nat)
    requires Feasible(Start(content, revision), events)
    requires var w := Run(Start(content, revision), events);
             Enabled(w, Save(client, id)) && CanSave(w.clients[client])
    ensures var w := Run(Start(content, revision), events);
            var d := w.clients[client];
            && !Saving(w, client)
            && Step(w, Save(client, id)).net[id] == Put(client, d.content, d.revision.value, d.savedContent)
            && d.revision.value in w.known && w.known[d.revision.value] == d.savedContent
            && (d.revision.value == w.revision ==> w.content == d.savedContent)
  {
    RunKeepsInvariant(Start(content, revision), events, content);
    var w := Run(Start(content, revision), events);
    assert DocumentFits(w.known, w.clients[client]);
  }

  /**
   An accepted save is in the log with that base; a refused one changes nothing but tells its client of the conflict.
   */
  lemma ServerAcceptsExactlyCurrentRevisions(content: Content, revision: Revision, events: seq<Event>, id: nat,
      next: Revision)
    requires Feasible(Start(content, revision), events)
    requires var w := Run(Start(content, revision), events);
             Enabled(w, Serve(id, next)) && (w.net[id].Put? || w.net[id].Lost?)
    ensures var w := Run(Start(content, revision), events);
            var t := Step(w, Serve(id, next));
            var m := w.net[id];
            if m.revision == w.revision then
              m.base == w.content && t.content == m.content
                  && t.log == w.log + [Write(Some(m.client), m.base, m.content)]
            else
              t.content == w.content && t.revision == w.revision && t.log == w.log
                  && (m.Put? ==> t.net[id] == Refused(m.client))
  {
    RunKeepsInvariant(Start(content, revision), events, content);
    assert MessageFits(Run(Start(content, revision), events).known, Run(Start(content, revision), events).net[id]);
  }

  /** Message `id` is an unanswered save of `client` that carries `text`, or the refusal of one. */
  predicate CarriesSave(w: World, id: nat, client: nat, text: Content) {
    && SaveUnderWay(w, id, client)
    && (w.net[id].Put? || w.net[id].Accepted? ==> w.net[id].content == text)
  }

  /** The client has not heard about message `id`. */
  ghost predicate Unanswered(events: seq<Event>, id: nat) {
    forall k :: 0 <= k < |events| && (events[k].Deliver? || events[k].Fail?) ==> events[k].id != id
  }

  lemma StepCarriesSave(w: World, event: Event, id: nat, client: nat, text: Content)
    requires Enabled(w, event) && CarriesSave(w, id, client, text)
        && ((event.Deliver? || event.Fail?) ==> event.id != id)
    ensures CarriesSave(Step(w, event), id, client, text)
  {
  }

  /** Until it is answered, a request carries the text it was sent with. */
  lemma {:induction false} RunCarriesSave(w: World, events: seq<Event>, id: nat, client: nat, text: Content)
    requires Feasible(w, events) && CarriesSave(w, id, client, text) && Unanswered(events, id)
    ensures CarriesSave(Run(w, events), id, client, text)
    decreases |events|
  {
    hide Step, Enabled, CarriesSave;
    if events != [] {
      assert (events[0].Deliver? || events[0].Fail?) ==> events[0].id != id;
      StepCarriesSave(w, events[0], id, client, text);
      RunCarriesSave(Step(w, events[0]), events[1..], id, client, text);
    }
  }

  /**
   Any run with a save, and any steps until it is answered: typing, reloads, other clients and writers included. When
   the answer comes, the text that the client shows by then stays if and only if the save was refused or the text is the
   one that was sent; an accepted save puts the sent text back. A failure keeps the text in every case.
   */
  lemma TypedTextSurvivesExactlyWhen(w: World, client: nat, id: nat, during: seq<Event>)
    requires Enabled(w, Save(client, id)) && CanSave(w.clients[client])
    requires Feasible(Step(w, Save(client, id)), during) && Unanswered(during, id)
    ensures var sent := w.clients[client].content;
            var t := Run(Step(w, Save(client, id)), during);
            && id in t.net && t.net[id].client == client
            && (Enabled(t, Deliver(id)) ==>
                  var shown, after := t.clients[client].content, Step(t, Deliver(id)).clients[client];
                  && (after.content == shown <==> t.net[id].Refused? || shown == sent)
                  && (!t.net[id].Refused? ==> after.content == sent && !Dirty(after)))
            && forall error :: Enabled(t, Fail(id, error)) ==>
                 Step(t, Fail(id, error)).clients[client].content == t.clients[client].content
  {
    RunCarriesSave(Step(w, Save(client, id)), during, id, client, w.clients[client].content);
  }

  /** Message `id` stays as it is until it is served, delivered or lost. */
  lemma StepKeepsMessage(w: World, event: Event, id: nat)
    requires Enabled(w, event) && id in w.net
    requires (event.Serve? || event.Deliver? || event.Fail?) ==> event.id != id
    ensures id in Step(w, event).net && Step(w, event).net[id] == w.net[id]
  {
  }

  /** No event serves, delivers or fails message `id`. */
  ghost predicate Untouched(events: seq<Event>, id: nat) {
    forall k :: 0 <= k < |events| && (events[k].Serve? || events[k].Deliver? || events[k].Fail?) ==> events[k].id != id
  }

  lemma {:induction false} RunKeepsMessage(w: World, events: seq<Event>, id: nat)
    requires Feasible(w, events) && Untouched(events, id) && id in w.net
    ensures id in Run(w, events).net && Run(w, events).net[id] == w.net[id]
    decreases |events|
  {
    hide Step, Enabled;
    if events != [] {
      StepKeepsMessage(w, events[0], id);
      assert Untouched(events[1..], id) by {
        assert forall k :: 0 <= k < |events[1..]| ==> events[1..][k] == events[k + 1];
      }
      RunKeepsMessage(Step(w, events[0]), events[1..], id);
    }
  }

  /**
   What a load shows: opening a closed editor or reloading sends a request, and whatever happens before it is served and
   until its reply arrives, the client then shows the document as the server had it when it served the request, holds
   that revision, is not loading and has nothing to save.
   */
  lemma LoadShowsTheServedDocument(w: World, request: Event, before: seq<Event>, next: Revision, after: seq<Event>)
    requires Enabled(w, request)
    requires request.Reload? || (request.Open? && !w.clients[request.client].open)
    requires Feasible(Step(w, request), before) && Untouched(before, request.id)
    ensures var asked := Run(Step(w, request), before);
            && Enabled(asked, Serve(request.id, next))
            && (Feasible(Step(asked, Serve(request.id, next)), after) && Untouched(after, request.id) ==>
                  var arrived := Run(Step(asked, Serve(request.id, next)), after);
                  Enabled(arrived, Deliver(request.id)) ==>
                    && arrived.net[request.id].client == request.client
                    && var d := Step(arrived, Deliver(request.id)).clients[request.client];
                       && d.content == asked.content && d.revision == Some(asked.revision)
                       && !Dirty(d) && !d.loading && !CanSave(d))
  {
    var sent := Step(w, request);
    assert sent.net[request.id] == Get(request.client);
    RunKeepsMessage(sent, before, request.id);
    var asked := Run(sent, before);
    var served := Step(asked, Serve(request.id, next));
    assert served.net[request.id] == Contents(request.client, asked.content, asked.revision);
    if Feasible(served, after) && Untouched(after, request.id) {
      RunKeepsMessage(served, after, request.id);
    }
  }

  /** What one event shows anew in the editor of client `c`: typed, received, or emptied for opening. */
  ghost function NewText(w: World, event: Event, c: nat): Option<Content>
    requires Enabled(w, event)
  {
    match event
    case Join(client) => if client == c then Some("") else None
    case Open(client, _) => if client == c && !w.clients[c].open then Some("") else None
    case Edit(client, text) => if client == c then Some(text) else None
    case Deliver(id) =>
      if w.net[id].client == c && (w.net[id].Contents? || w.net[id].Accepted?) then Some(w.net[id].content) else None
    case _ => None
  }

  /** The last text that a run shows anew in the editor of `c`, and whether it was typed. */
  ghost function LastText(w: World, events: seq<Event>, c: nat, last: (Content, bool)): (Content, bool)
    requires Feasible(w, events)
    decreases |events|
  {
    if events == [] then last
    else
      var text := NewText(w, events[0], c);
      LastText(Step(w, events[0]), events[1..], c, if text.Some? then (text.value, events[0].Edit?) else last)
  }

  /** The editor shows `last`; unless that was typed there is nothing to save. */
  predicate ShowsLast(w: World, c: nat, last: (Content, bool)) {
    c in w.clients ==>
      var d := w.clients[c];
      d.content == last.0 && (!last.1 ==> !Dirty(d)) && (d.revision.None? ==> d.savedContent == "")
  }

  lemma StepShowsLast(w: World, event: Event, c: nat, last: (Content, bool))
    requires Enabled(w, event) && ShowsLast(w, c, last)
    ensures var text := NewText(w, event, c);
            ShowsLast(Step(w, event), c, if text.Some? then (text.value, event.Edit?) else last)
  {
  }

  lemma {:induction false} RunShowsLast(w: World, events: seq<Event>, c: nat, last: (Content, bool))
    requires Feasible(w, events) && ShowsLast(w, c, last)
    ensures ShowsLast(Run(w, events), c, LastText(w, events, c, last))
    decreases |events|
  {
    hide Step, Enabled, NewText, ShowsLast;
    if events != [] {
      var text := NewText(w, events[0], c);
      var next := if text.Some? then (text.value, events[0].Edit?) else last;
      StepShowsLast(w, events[0], c, last);
      RunShowsLast(Step(w, events[0]), events[1..], c, next);
    }
  }

  /**
   In every reachable world each client shows exactly the last text that was typed into it or delivered to it since it
   was opened. If that was not typed, it is the document under the revision the client holds (the empty text while it
   holds none), and there is nothing to save.
   */
  lemma EditorShowsTheLastText(content: Content, revision: Revision, events: seq<Event>, c: nat)
    requires Feasible(Start(content, revision), events)
    requires c in Run(Start(content, revision), events).clients
    ensures var w := Run(Start(content, revision), events);
            var d := w.clients[c];
            var (text, typed) := LastText(Start(content, revision), events, c, ("", false));
            && d.content == text
            && (!typed ==>
                  && !Dirty(d) && !CanSave(d)
                  && match d.revision
                     case None => text == ""
                     case Some(held) => held in w.known && text == w.known[held])
  {
    RunShowsLast(Start(content, revision), events, c, ("", false));
    RunKeepsInvariant(Start(content, revision), events, content);
    assert DocumentFits(Run(Start(content, revision), events).known, Run(Start(content, revision), events).clients[c]);
  }

  /** What the editor's window shows besides the text. */
  datatype Sign = IsOpen | IsLoading | IsSaving | HasError | HasConflict | AsksToClose

  predicate Displays(d: Document, sign: Sign) {
    match sign
    case IsOpen => d.open
    case IsLoading => d.loading
    case IsSaving => d.saving
    case HasError => d.error.Some?
    case HasConflict => d.conflict
    case AsksToClose => d.confirmClose
  }

  predicate Opens(w: World, event: Event, c: nat) {
    event.Open? && event.client == c && c in w.clients && !w.clients[c].open
  }

  predicate Reloads(w: World, event: Event, c: nat) {
    Opens(w, event, c) || (event.Reload? && event.client == c)
  }

  /** The user closes the editor, with nothing to lose or on purpose. */
  predicate Closes(w: World, event: Event, c: nat) {
    || (event.Close? && event.client == c)
    || (event.RequestClose? && event.client == c && c in w.clients && !w.clients[c].saving && !Dirty(w.clients[c]))
  }

  predicate Sends(w: World, event: Event, c: nat) {
    event.Save? && event.client == c && c in w.clients && CanSave(w.clients[c])
  }

  /** The answer to a load or a save of `c`, or the news that there will be none. */
  predicate Answers(w: World, event: Event, c: nat, loads: bool) {
    && (event.Deliver? || event.Fail?) && event.id in w.net && w.net[event.id].client == c
    && (loads <==> w.net[event.id].Get? || w.net[event.id].Contents?)
  }

  predicate BringsConflict(w: World, event: Event, c: nat) {
    event.Deliver? && event.id in w.net && w.net[event.id] == Refused(c)
  }

  predicate TurnsOn(w: World, event: Event, c: nat, sign: Sign) {
    match sign
    case IsOpen => event.Open? && event.client == c
    case IsLoading => Reloads(w, event, c)
    case IsSaving => Sends(w, event, c)
    case HasError =>
      BringsConflict(w, event, c) || (event.Fail? && (Answers(w, event, c, true) || Answers(w, event, c, false)))
    case HasConflict => BringsConflict(w, event, c)
    case AsksToClose =>
      event.RequestClose? && event.client == c && c in w.clients && !w.clients[c].saving && Dirty(w.clients[c])
  }

  predicate TurnsOff(w: World, event: Event, c: nat, sign: Sign) {
    match sign
    case IsOpen => Closes(w, event, c)
    case IsLoading => Answers(w, event, c, true)
    case IsSaving => Answers(w, event, c, false)
    case HasError =>
      Reloads(w, event, c) || Closes(w, event, c) || Sends(w, event, c) || (event.Edit? && event.client == c)
    case HasConflict =>
      || Reloads(w, event, c) || Closes(w, event, c) || Sends(w, event, c) || (event.Edit? && event.client == c)
      || (event.Fail? && Answers(w, event, c, false))
    case AsksToClose => Reloads(w, event, c) || Closes(w, event, c)
  }

  predicate DisplaysIn(w: World, c: nat, sign: Sign) {
    c in w.clients && Displays(w.clients[c], sign)
  }

  /** The sign changes as the event says. */
  predicate SignFollows(w: World, event: Event, c: nat, sign: Sign)
    requires Enabled(w, event)
  {
    DisplaysIn(Step(w, event), c, sign)
    <==> TurnsOn(w, event, c, sign) || (DisplaysIn(w, c, sign) && !TurnsOff(w, event, c, sign))
  }

  lemma AnswerTurnsSigns(w: World, event: Event, c: nat, sign: Sign)
    requires Enabled(w, event) && (event.Deliver? || event.Fail?)
    ensures SignFollows(w, event, c, sign)
  {
  }

  lemma UserTurnsSigns(w: World, event: Event, c: nat, sign: Sign)
    requires Enabled(w, event) && !event.Deliver? && !event.Fail?
    ensures SignFollows(w, event, c, sign)
  {
  }

  /** The last event of the run that turns a sign on or off turned it on; `shown` if there is none. */
  ghost predicate LastTurnedOn(w: World, events: seq<Event>, c: nat, sign: Sign, shown: bool)
    requires Feasible(w, events)
    decreases |events|
  {
    if events == [] then shown
    else
      LastTurnedOn(Step(w, events[0]), events[1..], c, sign,
                   TurnsOn(w, events[0], c, sign) || (shown && !TurnsOff(w, events[0], c, sign)))
  }

  /**
   Every sign of every editor shows exactly when the last event that turns it on or off turned it on: loading from each
   request until its answer or failure, saving likewise, a conflict from the refusal until the next load, edit, save or
   close, and the question before closing only over unsaved text.
   */
  lemma {:induction false} SignsFollowTheirLastEvent(w: World, events: seq<Event>, c: nat, sign: Sign)
    requires Feasible(w, events)
    ensures DisplaysIn(Run(w, events), c, sign) <==> LastTurnedOn(w, events, c, sign, DisplaysIn(w, c, sign))
    decreases |events|
  {
    hide Step, Enabled, TurnsOn, TurnsOff, DisplaysIn;
    if events != [] {
      if events[0].Deliver? || events[0].Fail? {
        AnswerTurnsSigns(w, events[0], c, sign);
      } else {
        UserTurnsSigns(w, events[0], c, sign);
      }
      SignsFollowTheirLastEvent(Step(w, events[0]), events[1..], c, sign);
    }
  }

  /**
   A save that seems to have failed may still be stored: the client shows the error and its text, and when the server
   processes the request under the current revision after all, the text becomes the document, nothing tells the client,
   and the client's next save is refused.
   */
  lemma FailedSaveMayStillBeStored(w: World, id: nat, error: string, next: Revision, again: nat,
      last: Revision)
    requires Enabled(w, Fail(id, error)) && w.net[id].Put? && w.net[id].revision == w.revision
    requires MayStandFor(w, next, w.net[id].content) && next != w.net[id].revision
    requires var d := w.clients[w.net[id].client]; d.revision == Some(w.revision) && Dirty(d) && !d.loading
    requires again != id && again !in w.net
    ensures var client, text := w.net[id].client, w.net[id].content;
            var failed := Step(w, Fail(id, error));
            && Displays(failed.clients[client], HasError) && failed.clients[client].content == w.clients[client].content
            && Enabled(failed, Serve(id, next))
            && var stored := Step(failed, Serve(id, next));
               && stored.content == text && id !in stored.net && stored.clients == failed.clients
               && CanSave(stored.clients[client])
               && var sent := Step(stored, Save(client, again));
                  Enabled(sent, Serve(again, last)) ==> Step(sent, Serve(again, last)).net[again] == Refused(client)
  {
  }

  /** A write by anyone else between a save and its processing makes the server refuse the save and keep that write. */
  lemma WriteInBetweenRefusesTheSave(w: World, id: nat, text: Content, changed: Revision, next: Revision)
    requires id in w.net && w.net[id].Put? && w.net[id].client in w.clients
    requires Enabled(w, OtherWrite(text, changed)) && changed != w.net[id].revision
    ensures var other := Step(w, OtherWrite(text, changed));
            Enabled(other, Serve(id, next)) ==>
              var served := Step(other, Serve(id, next));
              && served.content == text && served.net[id] == Refused(w.net[id].client)
              && var told := Step(served, Deliver(id)).clients[w.net[id].client];
                 Displays(told, HasConflict) && told.content == w.clients[w.net[id].client].content
  {
  }

  /** Opening an editor that is open asks for nothing and changes nothing. */
  lemma OpeningTwiceChangesNothing(w: World, client: nat, id: nat)
    requires Enabled(w, Open(client, id)) && w.clients[client].open
    ensures Step(w, Open(client, id)) == w
  {
    assert w.clients[client := w.clients[client]] == w.clients;
  }

  /** A server and one client that has loaded the empty document. */
  const OPENED :=
    World(map[0 := Document(true, false, false, "", "", Some(0), None, false, false)], map[], "", 0, map[0 := ""], [])

  lemma OpenedIsReachable()
    ensures var events := [Join(0), Open(0, 1), Serve(1, 0), Deliver(1)];
            Feasible(Start("", 0), events) && Run(Start("", 0), events) == OPENED
  {
    var joined := Step(Start("", 0), Join(0));
    var asked := Step(joined, Open(0, 1));
    var served := Step(asked, Serve(1, 0));
    assert Step(served, Deliver(1)) == OPENED;
    hide Step, Enabled;
    OneMore(served, Deliver(1), []);
    OneMore(asked, Serve(1, 0), [Deliver(1)]);
    OneMore(joined, Open(0, 1), [Serve(1, 0), Deliver(1)]);
    OneMore(Start("", 0), Join(0), [Open(0, 1), Serve(1, 0), Deliver(1)]);
  }

  /** A concrete run from there that loses a text: "a" is sent, "ab" is typed, and the reply puts "a" back. */
  lemma EditsDuringASaveAreReplaced()
    ensures var events := [Edit(0, "a"), Save(0, 2), Edit(0, "ab"), Serve(2, 1)];
            && Feasible(OPENED, events)
            && var t := Run(OPENED, events);
               Enabled(t, Deliver(2)) && t.clients[0].content == "ab" && Step(t, Deliver(2)).clients[0].content == "a"
  {
    var edited := Step(OPENED, Edit(0, "a"));
    var sent := Step(edited, Save(0, 2));
    var typed := Step(sent, Edit(0, "ab"));
    var served := Step(typed, Serve(2, 1));
    assert served.net[2] == Accepted(0, "a", 1) && served.clients[0].content == "ab";
    assert Step(served, Deliver(2)).clients[0].content == "a";
    hide Step, Enabled;
    OneMore(typed, Serve(2, 1), []);
    OneMore(sent, Edit(0, "ab"), [Serve(2, 1)]);
    OneMore(edited, Save(0, 2), [Edit(0, "ab"), Serve(2, 1)]);
    OneMore(OPENED, Edit(0, "a"), [Save(0, 2), Edit(0, "ab"), Serve(2, 1)]);
  }

  lemma OneMore(w: World, event: Event, rest: seq<Event>)
    requires Enabled(w, event) && Feasible(Step(w, event), rest)
    ensures Feasible(w, [event] + rest) && Run(w, [event] + rest) == Run(Step(w, event), rest)
  {
    assert ([event] + rest)[1..] == rest;
  }
}
