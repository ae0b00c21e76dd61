/**
 The bounded, de-duplicated list of raw log entries: the LogViewer component of the plugin's `client.js`, which buffers
 entries until the next animation frame, and `appendLog` of `app.js`, which does not.
 */
module LogWindow {
  import opened LogCompaction
  import opened Text
  import opened Wrappers

  const LOG_STREAM_LIMIT: nat := 5000

  /** What the component holds between two handlers. */
  datatype View = View(identities: set<string>, pending: seq<Item>, entries: seq<Item>, cutoff: Option<int>)

  ghost function IdentitySet(items: seq<Item>): set<string> {
    set i | 0 <= i < |items| :: items[i].identity
  }

  predicate IsClearedLog(item: Item, cutoff: Option<int>) {
    cutoff.Some? && item.value.time.Some? && item.value.time.value <= cutoff.value
  }

  /** slice(-limit). */
  function LastEntries(items: seq<Item>): seq<Item> {
    if |items| <= LOG_STREAM_LIMIT then items else items[|items| - LOG_STREAM_LIMIT..]
  }

  function Evicted(items: seq<Item>): seq<Item> {
    if |items| <= LOG_STREAM_LIMIT then [] else items[..|items| - LOG_STREAM_LIMIT]
  }

  /** The newest timestamp of the entries, or `now` when that is newer. */
  function Latest(items: seq<Item>, now: int): int {
    if items == [] then now
    else
      var rest := Latest(items[..|items| - 1], now);
      var time := items[|items| - 1].value.time;
      if time.Some? && time.value > rest then time.value else rest
  }

  /** latestLogCutoff: the loop that finds it. */
  method LatestCutoff(items: seq<Item>, now: int) returns (latest: int)
    ensures latest == Latest(items, now)
  {
    latest := now;
    for k := 0 to |items|
      invariant latest == Latest(items[..k], now)
    {
      assert items[..k + 1][..k] == items[..k];
      if items[k].value.time.Some? && items[k].value.time.value > latest { latest := items[k].value.time.value; }
    }
    assert items[..|items|] == items;
  }

  /** The loop that deletes the identities of removed entries. */
  method Forget(identities: set<string>, removed: seq<Item>) returns (left: set<string>)
    ensures left == identities - IdentitySet(removed)
  {
    left := identities;
    for k := 0 to |removed|
      invariant left == identities - IdentitySet(removed[..k])
    {
      left := left - {removed[k].identity};
      IdentitySetAppend(removed[..k], removed[k]);
      assert removed[..k + 1] == removed[..k] + [removed[k]];
    }
    assert removed[..|removed|] == removed;
  }

  ghost function Receive(v: View, item: Item): View {
    if IsClearedLog(item, v.cutoff) || item.identity in v.identities then v
    else v.(identities := v.identities + {item.identity}, pending := v.pending + [item])
  }

  ghost function Commit(v: View): View {
    var combined := v.entries + v.pending;
    View(v.identities - IdentitySet(Evicted(combined)), [], LastEntries(combined), v.cutoff)
  }

  ghost function Disconnect(v: View): View {
    v.(identities := v.identities - IdentitySet(v.pending), pending := [])
  }

  ghost function Clear(v: View, now: int): View {
    View({}, [], [], Some(Latest(v.entries + v.pending, now)))
  }

  ghost function Opened(cutoff: Option<int>): View {
    View({}, [], [], cutoff)
  }

  class LogViewer {
    var logIdentities: set<string>
    var pendingEntries: seq<Item>
    var entries: seq<Item>
    var clearCutoff: Option<int>

    ghost function Current(): View
      reads this
    {
      View(logIdentities, pendingEntries, entries, clearCutoff)
    }

    constructor (storedCutoff: Option<int>)
      ensures Current() == Opened(storedCutoff)
    {
      logIdentities, pendingEntries, entries, clearCutoff := {}, [], [], storedCutoff;
    }

    /** The handler of a log event. */
    method OnLog(item: Item)
      modifies this
      ensures Current() == Receive(old(Current()), item)
    {
      if IsClearedLog(item, clearCutoff) || item.identity in logIdentities { return; }
      logIdentities := logIdentities + {item.identity};
      pendingEntries := pendingEntries + [item];
    }

    /** The animation frame that moves the buffer into the window. */
    method CommitPendingEntries()
      modifies this
      ensures Current() == Commit(old(Current()))
    {
      var combined := entries + pendingEntries;
      var removed := if |combined| <= LOG_STREAM_LIMIT then [] else combined[..|combined| - LOG_STREAM_LIMIT];
      logIdentities := Forget(logIdentities, removed);
      pendingEntries := [];
      entries := if |combined| <= LOG_STREAM_LIMIT then combined else combined[|combined| - LOG_STREAM_LIMIT..];
    }

    /** The clean-up that runs when the stream is replaced or the panel is left. */
    method Stop()
      modifies this
      ensures Current() == Disconnect(old(Current()))
    {
      logIdentities := Forget(logIdentities, pendingEntries);
      pendingEntries := [];
    }

    method ClearLogView(now: int)
      modifies this
      ensures Current() == Clear(old(Current()), now)
    {
      var latest := LatestCutoff(entries + pendingEntries, now);
      clearCutoff := Some(latest);
      pendingEntries, logIdentities, entries := [], {}, [];
    }
  }

  /** The same list in `app.js`, without a buffer. */
  class AppLog {
    var logIdentities: set<string>
    var logEntries: seq<Item>
    var logClearCutoff: Option<int>

    ghost function Current(): View
      reads this
    {
      View(logIdentities, [], logEntries, logClearCutoff)
    }

    constructor (storedCutoff: Option<int>)
      ensures Current() == Opened(storedCutoff)
    {
      logIdentities, logEntries, logClearCutoff := {}, [], storedCutoff;
    }

    ghost predicate Valid()
      reads this
    {
      Consistent(Current())
    }

    /** Appending is receiving an entry and committing at once. */
    method AppendLog(item: Item)
      requires Valid()
      modifies this
      ensures Valid() && Current() == Commit(Receive(old(Current()), item))
    {
      hide Distinct;
      ghost var received := Receive(Current(), item);
      ReceiveKeepsConsistency(Current(), item);
      CommitKeepsConsistency(received);
      if IsClearedLog(item, logClearCutoff) || item.identity in logIdentities {
        assert logEntries + [] == logEntries;
        return;
      }
      logEntries := logEntries + [item];
      logIdentities := logIdentities + {item.identity};
      assert Held(received) == logEntries;
      if |logEntries| > LOG_STREAM_LIMIT {
        var excess := |logEntries| - LOG_STREAM_LIMIT;
        var removed := logEntries[..excess];
        logEntries := logEntries[excess..];
        logIdentities := Forget(logIdentities, removed);
      }
      assert Current() == Commit(received);
    }

    /** The listener of the clear button. */
    method ClearLogs(now: int)
      modifies this
      ensures Valid() && Current() == Clear(old(Current()), now)
    {
      assert logEntries + [] == logEntries;
      var latest := LatestCutoff(logEntries, now);
      logClearCutoff := Some(latest);
      logEntries, logIdentities := [], {};
    }
  }

  lemma IdentitySetAppend(items: seq<Item>, item: Item)
    ensures IdentitySet(items + [item]) == IdentitySet(items) + {item.identity}
  {
    var longer := items + [item];
    forall x | x in IdentitySet(items) + {item.identity} ensures x in IdentitySet(longer) {
      if x == item.identity {
        assert longer[|items|] == item;
      } else {
        var i :| 0 <= i < |items| && items[i].identity == x;
        assert longer[i] == items[i];
      }
    }
  }

  lemma IdentitySetConcat(a: seq<Item>, b: seq<Item>)
    ensures IdentitySet(a + b) == IdentitySet(a) + IdentitySet(b)
  {
    forall x | x in IdentitySet(b) ensures x in IdentitySet(a + b) {
      var i :| 0 <= i < |b| && b[i].identity == x;
      assert (a + b)[|a| + i] == b[i];
    }
    forall x | x in IdentitySet(a) ensures x in IdentitySet(a + b) {
      var i :| 0 <= i < |a| && a[i].identity == x;
      assert (a + b)[i] == a[i];
    }
  }

  ghost predicate Distinct(items: seq<Item>) {
    NoDuplicates(Identities(items))
  }

  lemma DistinctMeaning(items: seq<Item>)
    ensures Distinct(items) <==> forall i, j :: 0 <= i < j < |items| ==> items[i].identity != items[j].identity
  {
    forall i | 0 <= i < |items| ensures Identities(items)[i] == items[i].identity {
    }
    if NoDuplicates(Identities(items)) {
      forall i, j | 0 <= i < j < |items| ensures items[i].identity != items[j].identity {
        assert Identities(items)[i] != Identities(items)[j];
      }
    }
  }

  /** All entries held, oldest first. */
  ghost function Held(v: View): seq<Item> {
    v.entries + v.pending
  }

  /**
   The invariant: the identity set is exactly that of the window and the buffer, nothing is held twice, the window is
   bounded, and no held entry falls before the clear cutoff.
   */
  ghost predicate Consistent(v: View) {
    && v.identities == IdentitySet(Held(v))
    && Distinct(Held(v))
    && |v.entries| <= LOG_STREAM_LIMIT
    && forall i :: 0 <= i < |Held(v)| ==> !IsClearedLog(Held(v)[i], v.cutoff)
  }

  datatype Event = Arrived(item: Item) | Frame | Stopped | Cleared(now: int)

  ghost function Step(v: View, event: Event): View {
    match event
    case Arrived(item) => Receive(v, item)
    case Frame => Commit(v)
    case Stopped => Disconnect(v)
    case Cleared(now) => Clear(v, now)
  }

  ghost function Run(v: View, events: seq<Event>): View {
    if events == [] then v else Step(Run(v, events[..|events| - 1]), events[|events| - 1])
  }

  /** Every entry ever committed to the window since it was last cleared. */
  ghost function Committed(v: View, events: seq<Event>): seq<Item> {
    if events == [] then []
    else
      var earlier := events[..|events| - 1];
      match events[|events| - 1]
      case Frame => Committed(v, earlier) + Run(v, earlier).pending
      case Cleared(_) => []
      case _ => Committed(v, earlier)
  }

  lemma ReceiveKeepsConsistency(v: View, item: Item)
    requires Consistent(v)
    ensures Consistent(Receive(v, item))
    ensures Receive(v, item) == v <==> item.identity in IdentitySet(Held(v)) || IsClearedLog(item, v.cutoff)
  {
    IdentitySetAppend(Held(v), item);
    var next := Receive(v, item);
    DistinctMeaning(Held(v));
    DistinctMeaning(Held(next));
    if next != v {
      assert Held(next) == Held(v) + [item];
    }
    assert item.identity !in IdentitySet(Held(v)) ==> forall i :: 0 <= i < |Held(v)| ==>
        Held(v)[i].identity != item.identity;
  }

  lemma DistinctParts(a: seq<Item>, b: seq<Item>)
    requires Distinct(a + b)
    ensures Distinct(a) && Distinct(b) && IdentitySet(a) !! IdentitySet(b)
  {
    DistinctMeaning(a + b);
    DistinctMeaning(a);
    DistinctMeaning(b);
    hide Distinct;
    assert forall i :: 0 <= i < |b| ==> (a + b)[|a| + i] == b[i];
    assert forall i :: 0 <= i < |a| ==> (a + b)[i] == a[i];
  }

  lemma CommitKeepsConsistency(v: View)
    requires Consistent(v)
    ensures Consistent(Commit(v))
  {
    var combined := Held(v);
    assert combined == Evicted(combined) + LastEntries(combined);
    DistinctParts(Evicted(combined), LastEntries(combined));
    IdentitySetConcat(Evicted(combined), LastEntries(combined));
    assert Held(Commit(v)) == LastEntries(combined);
    forall i | 0 <= i < |LastEntries(combined)| ensures !IsClearedLog(LastEntries(combined)[i], v.cutoff) {
      assert LastEntries(combined)[i] == combined[|Evicted(combined)| + i];
    }
  }

  lemma DisconnectKeepsConsistency(v: View)
    requires Consistent(v)
    ensures Consistent(Disconnect(v))
  {
    DistinctParts(v.entries, v.pending);
    IdentitySetConcat(v.entries, v.pending);
    assert Held(Disconnect(v)) == v.entries;
    forall i | 0 <= i < |v.entries| ensures !IsClearedLog(v.entries[i], v.cutoff) {
      assert Held(v)[i] == v.entries[i];
    }
  }

  /**
   In every reachable state the view is consistent, and the window is exactly the newest entries ever committed since
   the last clear: nothing is lost but by the bound.
   */
  lemma {:induction false} EveryReachableViewIsConsistent(storedCutoff: Option<int>, events: seq<Event>)
    ensures Consistent(Run(Opened(storedCutoff), events))
    ensures Run(Opened(storedCutoff), events).entries == LastEntries(Committed(Opened(storedCutoff), events))
  {
    var start := Opened(storedCutoff);
    if events != [] {
      var earlier, event := events[..|events| - 1], events[|events| - 1];
      EveryReachableViewIsConsistent(storedCutoff, earlier);
      var v := Run(start, earlier);
      match event
      case Arrived(item) => ReceiveKeepsConsistency(v, item);
      case Frame =>
        CommitKeepsConsistency(v);
        LastOfLast(Committed(start, earlier), v.pending);
      case Stopped => DisconnectKeepsConsistency(v);
      case Cleared(now) =>
    }
  }

  lemma LastOfLast(committed: seq<Item>, pending: seq<Item>)
    ensures LastEntries(LastEntries(committed) + pending) == LastEntries(committed + pending)
  {
  }

  /** An arriving entry is refused exactly when it is still held or was cleared. */
  lemma RefusedExactlyWhenHeldOrCleared(storedCutoff: Option<int>, events: seq<Event>, item: Item)
    ensures var v := Run(Opened(storedCutoff), events);
            && (item.identity in IdentitySet(Held(v)) || IsClearedLog(item, v.cutoff) ==> Receive(v, item) == v)
            && (item.identity !in IdentitySet(Held(v)) && !IsClearedLog(item, v.cutoff) ==>
                  Held(Receive(v, item)) == Held(v) + [item])
  {
    EveryReachableViewIsConsistent(storedCutoff, events);
    var v := Run(Opened(storedCutoff), events);
    ReceiveKeepsConsistency(v, item);
  }

  lemma {:induction false} LatestBounds(items: seq<Item>, now: int)
    ensures Latest(items, now) >= now
    ensures forall i :: 0 <= i < |items| && items[i].value.time.Some? ==>
        items[i].value.time.value <= Latest(items, now)
    ensures Latest(items, now) == now || exists i :: 0 <= i < |items| && items[i].value.time == Some(Latest(items, now))
  {
    if items != [] {
      LatestBounds(items[..|items| - 1], now);
    }
  }

  /** Nothing but the next clear changes the cutoff. */
  lemma {:induction false} CutoffStays(v: View, events: seq<Event>)
    requires Consistent(v) && forall k :: 0 <= k < |events| ==> !events[k].Cleared?
    ensures Run(v, events).cutoff == v.cutoff && Consistent(Run(v, events))
  {
    if events != [] {
      var earlier, event := events[..|events| - 1], events[|events| - 1];
      CutoffStays(v, earlier);
      var before := Run(v, earlier);
      assert !event.Cleared?;
      hide Consistent;
      match event
      case Arrived(item) => ReceiveKeepsConsistency(before, item);
      case Frame => CommitKeepsConsistency(before);
      case Stopped => DisconnectKeepsConsistency(before);
    }
  }

  /** The entry has no timestamp that can be read, or a later one than `now` and every timestamp in `items`. */
  ghost predicate IsNewerThan(item: Item, items: seq<Item>, now: int) {
    item.value.time.Some? ==>
      && now < item.value.time.value
      && forall i :: 0 <= i < |items| && items[i].value.time.Some? ==>
           items[i].value.time.value < item.value.time.value
  }

  lemma NewerIsNotCleared(item: Item, items: seq<Item>, now: int)
    ensures IsNewerThan(item, items, now) <==> !IsClearedLog(item, Some(Latest(items, now)))
  {
    LatestBounds(items, now);
  }

  lemma RefusedOrHeld(v: View, item: Item)
    requires Consistent(v) && item.identity !in IdentitySet(Held(v))
    ensures if IsClearedLog(item, v.cutoff) then Receive(v, item) == v else Held(Receive(v, item)) == Held(v) + [item]
  {
    ReceiveKeepsConsistency(v, item);
  }

  /**
   What a clear keeps out, and what not: from then on until the next clear, whatever arrives and is evicted meanwhile,
   an entry that is not held is accepted exactly when its timestamp is later than the time of the clear and than every
   entry that was then held, or cannot be read.
   */
  lemma AcceptedAfterClearExactlyWhen(storedCutoff: Option<int>, before: seq<Event>, now: int, after: seq<Event>,
      item: Item)
    requires forall k :: 0 <= k < |after| ==> !after[k].Cleared?
    requires item.identity !in IdentitySet(Held(Run(Clear(Run(Opened(storedCutoff), before), now), after)))
    ensures var v := Run(Opened(storedCutoff), before);
            var t := Run(Clear(v, now), after);
            && (IsNewerThan(item, Held(v), now) ==> Held(Receive(t, item)) == Held(t) + [item])
            && (!IsNewerThan(item, Held(v), now) ==> Receive(t, item) == t)
  {
    var v := Run(Opened(storedCutoff), before);
    var t := Run(Clear(v, now), after);
    hide Run, IsNewerThan, IsClearedLog, Latest;
    NewerIsNotCleared(item, Held(v), now);
    CutoffStays(Clear(v, now), after);
    RefusedOrHeld(t, item);
  }

  /** The same under a cutoff stored by an earlier clear: it keeps out what is not later, and nothing else. */
  lemma AcceptedUnderStoredCutoffExactlyWhen(storedCutoff: Option<int>, events: seq<Event>, item: Item)
    requires forall k :: 0 <= k < |events| ==> !events[k].Cleared?
    requires item.identity !in IdentitySet(Held(Run(Opened(storedCutoff), events)))
    ensures var v := Run(Opened(storedCutoff), events);
            if storedCutoff.Some? && item.value.time.Some? && item.value.time.value <= storedCutoff.value then
              Receive(v, item) == v
            else Held(Receive(v, item)) == Held(v) + [item]
  {
    CutoffStays(Opened(storedCutoff), events);
    RefusedOrHeld(Run(Opened(storedCutoff), events), item);
  }

  /**
   A reconnecting stream replays old entries. Replaying entries that are held changes nothing; after a clear, replaying
   anything that was held and has a timestamp changes nothing either.
   */
  lemma {:induction false} ReplayChangesNothing(v: View, now: int, replay: seq<Item>)
    requires Consistent(v)
    requires forall k :: 0 <= k < |replay| ==> replay[k] in Held(v)
    ensures Run(v, ArrivalsOf(replay)) == v
    ensures (forall k :: 0 <= k < |replay| ==> replay[k].value.time.Some?) ==>
              Run(Clear(v, now), ArrivalsOf(replay)) == Clear(v, now)
  {
    LatestBounds(Held(v), now);
    if replay != [] {
      var init, last := replay[..|replay| - 1], replay[|replay| - 1];
      assert ArrivalsOf(replay)[..|replay| - 1] == ArrivalsOf(init);
      ReplayChangesNothing(v, now, init);
      assert last in Held(v);
    }
  }

  ghost function ArrivalsOf(items: seq<Item>): seq<Event> {
    seq(|items|, i requires 0 <= i < |items| => Arrived(items[i]))
  }
}
