/**
 The connection of the container terminal in `app.js`: a WebSocket that is opened again one second after it closes, for
 at most thirty seconds.

 Every handler is one step. The environment owns the clock, the pending timers and the sockets, and decides when they
 act; the clock does not go back, and a timer does not fire before it is due. An event that cannot happen changes
 nothing, so that every list of events is a run.
 */
module TerminalReconnect {
  import opened Wrappers

  const RECONNECT_WINDOW := 30000
  const RECONNECT_DELAY := 1000

  datatype SessionState = Inactive | Connecting | Connected | Reconnecting | Exited | Failed | Closed

  datatype Message = Output | ExitNotice | Garbled

  /**
   `handle` is `terminalReconnectTimer`, `pending` are the timers that will fire with the times they are due, `owners`
   the sessions of the sockets made so far, and `live` the sockets on which neither side has ended the connection.
   */
  datatype Terminal = Terminal(session: Option<nat>, socket: Option<nat>, deadline: Option<int>, handle: Option<nat>,
                               status: SessionState, leaving: bool,
                               now: int, pending: map<nat, int>, timers: nat, owners: seq<nat>, live: set<nat>)

  function Start(now: int): Terminal {
    Terminal(None, None, None, None, Inactive, false, now, map[], 0, [], {})
  }

  /** Save and Connect are the two halves of restoring or creating a session. */
  datatype Event =
    | Tick(to: int) | Save(session: nat) | Connect | Forget(status: SessionState) | Leave
    | TimerFires(timer: nat) | Opened(socket: nat) | Received(socket: nat, message: Message)
    | SocketClosed(socket: nat) | SocketError(socket: nat)

  predicate Enabled(t: Terminal, event: Event) {
    match event
    case Tick(to) => t.now <= to
    case TimerFires(timer) => timer in t.pending && t.pending[timer] <= t.now
    case Opened(socket) => socket < |t.owners|
    case Received(socket, _) => socket < |t.owners|
    case SocketClosed(socket) => socket < |t.owners|
    case SocketError(socket) => socket < |t.owners|
    case _ => true
  }

  function ClearTimeout(t: Terminal): Terminal {
    if t.handle.Some? then t.(pending := t.pending - {t.handle.value}) else t
  }

  function HangUp(t: Terminal): Terminal {
    if t.socket.Some? then t.(live := t.live - {t.socket.value}) else t
  }

  function ForgetSession(t: Terminal, status: SessionState): Terminal {
    HangUp(ClearTimeout(t)).(handle := None, deadline := None, socket := None, session := None, status := status)
  }

  function ConnectTerminal(t: Terminal, reconnect: bool): Terminal {
    if t.session.None? || t.leaving then t
    else
      ClearTimeout(t).(status := if reconnect then Reconnecting else Connecting, socket := Some(|t.owners|),
                       owners := t.owners + [t.session.value], live := t.live + {|t.owners|})
  }

  /** What the close of the current socket leads to when there is still a session to serve. */
  function Reschedule(t: Terminal): Terminal {
    var deadline := t.deadline.GetOr(t.now + RECONNECT_WINDOW);
    if t.now >= deadline then ForgetSession(t.(deadline := Some(deadline)), Failed)
    else t.(deadline := Some(deadline), status := Reconnecting, handle := Some(t.timers), timers := t.timers + 1,
            pending := t.pending[t.timers := t.now + RECONNECT_DELAY])
  }

  function OnClose(t: Terminal, socket: nat): Terminal
    requires socket < |t.owners|
  {
    var gone := t.(live := t.live - {socket});
    if t.socket != Some(socket) then gone
    else if t.leaving || t.session != Some(t.owners[socket]) || t.status == Exited then gone.(socket := None)
    else Reschedule(gone.(socket := None))
  }

  function Step(t: Terminal, event: Event): Terminal {
    if !Enabled(t, event) then t
    else
      match event
      case Tick(to) => t.(now := to)
      case Save(session) => t.(session := Some(session))
      case Connect => ConnectTerminal(t, false)
      case Forget(status) => ForgetSession(t, status)
      case Leave => HangUp(ClearTimeout(t)).(leaving := true)
      case TimerFires(timer) => ConnectTerminal(t.(pending := t.pending - {timer}), true)
      case Opened(socket) =>
        if t.socket != Some(socket) || t.session != Some(t.owners[socket]) then t.(live := t.live - {socket})
        else t.(deadline := None, status := Connected)
      case Received(socket, message) =>
        if t.socket != Some(socket) || message.Output? then t
        else t.(status := if message.ExitNotice? then Exited else Failed)
      case SocketClosed(socket) => OnClose(t, socket)
      case SocketError(socket) => if t.socket == Some(socket) then t.(status := Reconnecting) else t
  }

  function Run(t: Terminal, events: seq<Event>): Terminal
    decreases |events|
  {
    if events == [] then t else Run(Step(t, events[0]), events[1..])
  }

  /** The terminal part of the page, with the clock, timers and sockets of the browser it runs in. */
  class TerminalPanel {
    var sessionId: Option<nat>
    var socket: Option<nat>
    var reconnectTimer: Option<nat>
    var reconnectDeadline: Option<int>
    var sessionState: SessionState
    var leaving: bool
    var now: int
    var pending: map<nat, int>
    var timers: nat
    var owners: seq<nat>
    var live: set<nat>

    ghost function View(): Terminal
      reads this
    {
      Terminal(sessionId, socket, reconnectDeadline, reconnectTimer, sessionState, leaving, now, pending, timers,
          owners, live)
    }

    constructor (time: int)
      ensures View() == Start(time)
    {
      sessionId, socket, reconnectTimer, reconnectDeadline := None, None, None, None;
      sessionState, leaving, now := Inactive, false, time;
      pending, timers, owners, live := map[], 0, [], {};
    }

    method ClearReconnectTimer()
      modifies this`pending
      ensures View() == ClearTimeout(old(View()))
    {
      if reconnectTimer.Some? { pending := pending - {reconnectTimer.value}; }
    }

    method CloseSocket()
      modifies this`live
      ensures View() == HangUp(old(View()))
    {
      if socket.Some? { live := live - {socket.value}; }
    }

    /** forgetTerminalSession, with clearTerminalReconnect. */
    method ForgetTerminalSession(status: SessionState)
      modifies this
      ensures View() == ForgetSession(old(View()), status)
    {
      ClearReconnectTimer();
      reconnectTimer := None;
      reconnectDeadline := None;
      CloseSocket();
      socket := None;
      sessionId := None;
      sessionState := status;
    }

    method ConnectSocket(reconnect: bool)
      modifies this
      ensures View() == ConnectTerminal(old(View()), reconnect)
    {
      if sessionId.None? || leaving { return; }
      ClearReconnectTimer();
      sessionState := if reconnect then Reconnecting else Connecting;
      socket := Some(|owners|);
      live := live + {|owners|};
      owners := owners + [sessionId.value];
    }

    method OnTimer(timer: nat)
      requires timer in pending && pending[timer] <= now
      modifies this
      ensures View() == Step(old(View()), TimerFires(timer))
    {
      pending := pending - {timer};
      ConnectSocket(true);
    }

    method OnOpen(which: nat)
      requires which < |owners|
      modifies this
      ensures View() == Step(old(View()), Opened(which))
    {
      if socket != Some(which) || sessionId != Some(owners[which]) {
        live := live - {which};
        return;
      }
      reconnectDeadline := None;
      sessionState := Connected;
    }

    method OnMessage(from: nat, message: Message)
      requires from < |owners|
      modifies this
      ensures View() == Step(old(View()), Received(from, message))
    {
      if socket != Some(from) { return; }
      match message
      case Output => return;
      case ExitNotice => sessionState := Exited;
      case Garbled => sessionState := Failed;
    }

    /** The part of the close handler that schedules the next attempt, or gives up. */
    method ScheduleReconnect()
      modifies this
      ensures View() == Reschedule(old(View()))
    {
      if reconnectDeadline.None? { reconnectDeadline := Some(now + RECONNECT_WINDOW); }
      if now >= reconnectDeadline.value {
        ForgetTerminalSession(Failed);
        return;
      }
      sessionState := Reconnecting;
      reconnectTimer := Some(timers);
      pending := pending[timers := now + RECONNECT_DELAY];
      timers := timers + 1;
    }

    method OnSocketClose(closed: nat)
      requires closed < |owners|
      modifies this
      ensures View() == Step(old(View()), SocketClosed(closed))
    {
      hide Reschedule;
      live := live - {closed};
      if socket != Some(closed) { return; }
      socket := None;
      if leaving || sessionId != Some(owners[closed]) || sessionState == Exited { return; }
      ScheduleReconnect();
    }

    method OnSocketError(failed: nat)
      requires failed < |owners|
      modifies this
      ensures View() == Step(old(View()), SocketError(failed))
    {
      if socket == Some(failed) { sessionState := Reconnecting; }
    }

    /** The beforeunload listener. */
    method OnLeave()
      modifies this
      ensures View() == Step(old(View()), Leave)
    {
      leaving := true;
      ClearReconnectTimer();
      CloseSocket();
    }
  }

  /** The timer that will reconnect, if there is one. */
  predicate Waiting(t: Terminal) {
    t.handle.Some? && t.handle.value in t.pending
  }

  /**
   At most one timer is pending, the one the page can clear; it was set before the deadline, at most a second ago from
   when it is due, and then there is no current socket.
   */
  ghost predicate Invariant(t: Terminal) {
    && (forall timer :: timer in t.pending ==> t.handle == Some(timer))
    && (t.handle.Some? ==> t.handle.value < t.timers)
    && (Waiting(t) ==>
          && t.socket.None? && t.session.Some? && !t.leaving && t.deadline.Some?
          && t.pending[t.handle.value] - RECONNECT_DELAY <= t.now
          && t.pending[t.handle.value] - RECONNECT_DELAY < t.deadline.value
          && t.deadline.value <= t.pending[t.handle.value] - RECONNECT_DELAY + RECONNECT_WINDOW)
    && (t.socket.Some? ==> t.socket.value < |t.owners| && t.session.Some?)
    && (t.deadline.Some? ==> t.deadline.value <= t.now + RECONNECT_WINDOW)
    && (forall socket :: socket in t.live ==> socket < |t.owners|)
  }

  lemma ConnectingKeepsInvariant(t: Terminal, reconnect: bool)
    requires Invariant(t) && (reconnect ==> t.socket.None?)
    ensures Invariant(ConnectTerminal(t, reconnect))
  {
  }

  lemma ForgettingKeepsInvariant(t: Terminal, status: SessionState)
    requires Invariant(t)
    ensures Invariant(ForgetSession(t, status))
  {
  }

  lemma ClosingKeepsInvariant(t: Terminal, socket: nat)
    requires Invariant(t) && socket < |t.owners|
    ensures Invariant(OnClose(t, socket))
  {
    hide ForgetSession;
    var unset := t.(live := t.live - {socket}, socket := None);
    ForgettingKeepsInvariant(unset.(deadline := Some(t.deadline.GetOr(t.now + RECONNECT_WINDOW))), Failed);
  }

  lemma EveryStepKeepsInvariant(t: Terminal, event: Event)
    requires Invariant(t)
    ensures Invariant(Step(t, event))
  {
    hide ConnectTerminal, ForgetSession, OnClose;
    match event
    case Connect => ConnectingKeepsInvariant(t, false);
    case Forget(status) => ForgettingKeepsInvariant(t, status);
    case TimerFires(timer) =>
      if Enabled(t, event) { ConnectingKeepsInvariant(t.(pending := t.pending - {timer}), true); }
    case SocketClosed(socket) => if Enabled(t, event) { ClosingKeepsInvariant(t, socket); }
    case _ =>
  }

  lemma {:induction false} EveryRunKeepsInvariant(t: Terminal, events: seq<Event>)
    requires Invariant(t)
    ensures Invariant(Run(t, events))
    decreases |events|
  {
    hide Invariant, Step;
    if events != [] {
      EveryStepKeepsInvariant(t, events[0]);
      EveryRunKeepsInvariant(Step(t, events[0]), events[1..]);
    }
  }

  /** A timer fires and a socket is made. */
  predicate Reconnects(t: Terminal, event: Event) {
    event.TimerFires? && |Step(t, event).owners| > |t.owners|
  }

  function Attempts(t: Terminal, events: seq<Event>): nat
    decreases |events|
  {
    if events == [] then 0 else (if Reconnects(t, events[0]) then 1 else 0) + Attempts(Step(t, events[0]), events[1..])
  }

  /** The current socket opens, the session is forgotten, or its socket closes at or after the deadline. */
  predicate EndsReconnecting(t: Terminal, event: Event) {
    match event
    case Forget(_) => true
    case Opened(socket) => Enabled(t, event) && t.socket == Some(socket) && t.session == Some(t.owners[socket])
    case SocketClosed(socket) =>
      && Enabled(t, event) && t.socket == Some(socket) && t.session == Some(t.owners[socket])
      && !t.leaving && t.status != Exited && t.deadline.Some? && t.now >= t.deadline.value
    case _ => false
  }

  predicate StaysDisconnected(t: Terminal, events: seq<Event>)
    decreases |events|
  {
    events == [] || (!EndsReconnecting(t, events[0]) && StaysDisconnected(Step(t, events[0]), events[1..]))
  }

  /** The seconds until the deadline, rounded up. */
  function SecondsLeft(t: Terminal, from: int): nat
    requires t.deadline.Some?
  {
    if t.deadline.value <= from then 0 else (t.deadline.value - from + RECONNECT_DELAY - 1) / RECONNECT_DELAY
  }

  /** How many attempts can still be made before the session must be given up. */
  function AttemptsLeft(t: Terminal): nat {
    if t.deadline.None? then RECONNECT_WINDOW / RECONNECT_DELAY
    else if Waiting(t) then
      var due := t.pending[t.handle.value];
      1 + SecondsLeft(t, if t.now < due then due else t.now)
    else SecondsLeft(t, t.now)
  }

  lemma AttemptsLeftAtMostThirty(t: Terminal)
    requires Invariant(t)
    ensures AttemptsLeft(t) <= 30
  {
  }

  lemma StepLowersAttemptsLeft(t: Terminal, event: Event)
    requires Invariant(t) && !EndsReconnecting(t, event)
    ensures AttemptsLeft(Step(t, event)) + (if Reconnects(t, event) then 1 else 0) <= AttemptsLeft(t)
  {
  }

  /**
   The deadline that the first close sets stays until one of the three ends, so that the measure cannot start anew.
   */
  lemma DeadlineIsKeptUntilReconnectingEnds(t: Terminal, event: Event)
    requires Invariant(t) && t.deadline.Some?
    ensures Step(t, event).deadline == if EndsReconnecting(t, event) then None else t.deadline
  {
  }

  /**
   From every reachable state, and whatever happens as long as no socket opens and the session is not forgotten: the
   number of reconnect attempts is at most what the remaining deadline allows, and never more than 30; and a deadline
   once set stays, so that the measure cannot start anew.
   */
  lemma {:induction false} ReconnectionIsBounded(t: Terminal, events: seq<Event>)
    requires Invariant(t) && StaysDisconnected(t, events)
    ensures Attempts(t, events) + AttemptsLeft(Run(t, events)) <= AttemptsLeft(t) <= 30
    ensures t.deadline.Some? ==> Run(t, events).deadline == t.deadline
    decreases |events|
  {
    hide Invariant, Step, AttemptsLeft, EndsReconnecting, Reconnects;
    AttemptsLeftAtMostThirty(t);
    if events != [] {
      EveryStepKeepsInvariant(t, events[0]);
      StepLowersAttemptsLeft(t, events[0]);
      if t.deadline.Some? { DeadlineIsKeptUntilReconnectingEnds(t, events[0]); }
      ReconnectionIsBounded(Step(t, events[0]), events[1..]);
    }
  }

  /** The same for the page itself: after any history, a disconnection leads to at most 30 attempts. */
  lemma AtMostThirtyAttempts(now: int, history: seq<Event>, events: seq<Event>)
    requires StaysDisconnected(Run(Start(now), history), events)
    ensures Attempts(Run(Start(now), history), events) <= AttemptsLeft(Run(Start(now), history)) <= 30
  {
    EveryRunKeepsInvariant(Start(now), history);
    ReconnectionIsBounded(Run(Start(now), history), events);
  }

  /** The moment from which the next second must pass before another attempt. */
  function LastSet(t: Terminal): int {
    if Waiting(t) then t.pending[t.handle.value] - RECONNECT_DELAY else t.now
  }

  lemma LastSetIsPast(t: Terminal)
    requires Invariant(t)
    ensures LastSet(t) <= t.now
  {
  }

  lemma StepKeepsTheDelay(t: Terminal, event: Event)
    requires Invariant(t)
    ensures LastSet(t) + (if Reconnects(t, event) then RECONNECT_DELAY else 0) <= LastSet(Step(t, event))
    ensures LastSet(Step(t, event)) <= Step(t, event).now
  {
  }

  /** Whatever happens, connections opened and sessions changed included, attempts are at least a second apart. */
  lemma {:induction false} AttemptsAreASecondApart(t: Terminal, events: seq<Event>)
    requires Invariant(t)
    ensures LastSet(t) + RECONNECT_DELAY * Attempts(t, events) <= LastSet(Run(t, events)) <= Run(t, events).now
    decreases |events|
  {
    LastSetIsPast(t);
    hide Invariant, Step, LastSet, Reconnects;
    if events != [] {
      EveryStepKeepsInvariant(t, events[0]);
      StepKeepsTheDelay(t, events[0]);
      AttemptsAreASecondApart(Step(t, events[0]), events[1..]);
    }
  }

  /**
   A closing socket schedules an attempt exactly when it is the page's own and there is still something to reconnect to.
   */
  lemma CloseSchedulesExactlyWhen(t: Terminal, socket: nat)
    requires Invariant(t) && t.socket == Some(socket)
    ensures Waiting(Step(t, SocketClosed(socket)))
            <==> !t.leaving && t.session == Some(t.owners[socket]) && t.status != Exited
                 && (t.deadline.None? || t.now < t.deadline.value)
  {
  }

  /** What may come between the exit message of a socket and its close without bringing the session back. */
  predicate LeavesExitAlone(event: Event, socket: nat) {
    match event
    case Tick(_) => true
    case Leave => true
    case TimerFires(_) => true
    case Received(_, message) => message.Output? || message.ExitNotice?
    case Opened(other) => other != socket
    case SocketClosed(other) => other != socket
    case SocketError(other) => other != socket
    case _ => false
  }

  lemma {:induction false} ExitedSessionStaysExited(t: Terminal, socket: nat, events: seq<Event>)
    requires Invariant(t) && t.socket == Some(socket) && t.status == Exited
    requires forall k :: 0 <= k < |events| ==> LeavesExitAlone(events[k], socket)
    ensures var end := Run(t, events);
            end.socket == Some(socket) && end.status == Exited && Invariant(end)
    ensures Attempts(t, events) == 0
    decreases |events|
  {
    if events != [] {
      assert LeavesExitAlone(events[0], socket);
      EveryStepKeepsInvariant(t, events[0]);
      ExitedSessionStaysExited(Step(t, events[0]), socket, events[1..]);
    }
  }

  /** A shell that has exited is not connected to again, whatever undisturbing events come before its socket closes. */
  lemma ExitIsFinal(t: Terminal, socket: nat, events: seq<Event>)
    requires Invariant(t) && t.socket == Some(socket)
    requires forall k :: 0 <= k < |events| ==> LeavesExitAlone(events[k], socket)
    ensures var end := Step(Run(Step(t, Received(socket, ExitNotice)), events), SocketClosed(socket));
            end.status == Exited && end.socket.None? && end.pending == map[]
  {
    hide Run, Attempts;
    var exited := Step(t, Received(socket, ExitNotice));
    EveryStepKeepsInvariant(t, Received(socket, ExitNotice));
    ExitedSessionStaysExited(exited, socket, events);
  }

  /** An error on the socket after the exit message is what brings the exited session back. */
  lemma ErrorAfterExitReconnects(t: Terminal, socket: nat)
    requires Invariant(t) && t.socket == Some(socket) && !t.leaving && t.session == Some(t.owners[socket])
        && t.deadline.None?
    ensures Waiting(Run(t, [Received(socket, ExitNotice), SocketError(socket), SocketClosed(socket)]))
  {
    var exited := Step(t, Received(socket, ExitNotice));
    var failed := Step(exited, SocketError(socket));
    assert Run(failed, [SocketClosed(socket)]) == Step(failed, SocketClosed(socket));
    assert Run(exited, [SocketError(socket), SocketClosed(socket)]) == Run(failed, [SocketClosed(socket)]);
  }

  /** No session, or a page that is going away: nothing is connected, and nothing is going to be. */
  predicate AtRest(t: Terminal) {
    t.pending == map[] && (t.leaving || (t.session.None? && t.socket.None?))
  }

  lemma StepStaysAtRest(t: Terminal, event: Event)
    requires Invariant(t) && AtRest(t) && (t.leaving || !event.Save?)
    ensures AtRest(Step(t, event)) && Step(t, event).owners == t.owners && (t.leaving ==> Step(t, event).leaving)
  {
  }

  lemma {:induction false} RunStaysAtRest(t: Terminal, events: seq<Event>)
    requires Invariant(t) && AtRest(t)
    requires t.leaving || forall k :: 0 <= k < |events| ==> !events[k].Save?
    ensures AtRest(Run(t, events)) && Run(t, events).owners == t.owners
    decreases |events|
  {
    hide Invariant, Step, AtRest;
    if events != [] {
      EveryStepKeepsInvariant(t, events[0]);
      StepStaysAtRest(t, events[0]);
      RunStaysAtRest(Step(t, events[0]), events[1..]);
    }
  }

  /**
   Forgetting is final: the session's connection is hung up, and whatever happens until another session is saved, no
   timer is set and no socket is made. The same holds for a session that is given up when its socket closes at or after
   the deadline, which counts as failed.
   */
  lemma ForgottenSessionStaysAway(t: Terminal, event: Event, events: seq<Event>)
    requires Invariant(t) && (event.Forget? || GivesUp(t, event))
    requires forall k :: 0 <= k < |events| ==> !events[k].Save?
    ensures var forgotten := Step(t, event);
            var end := Run(forgotten, events);
            && forgotten.status == (if event.Forget? then event.status else Failed)
            && (t.socket.Some? ==> t.socket.value !in forgotten.live)
            && forgotten.session.None? && forgotten.socket.None?
            && forgotten.deadline.None? && forgotten.handle.None?
            && end.pending == map[] && end.owners == t.owners
  {
    EveryStepKeepsInvariant(t, event);
    RunStaysAtRest(Step(t, event), events);
    hide Run;
  }

  /** A page that the user leaves hangs up and connects no more, whatever happens. */
  lemma LeavingPageConnectsNoMore(t: Terminal, events: seq<Event>)
    requires Invariant(t)
    ensures var left := Step(t, Leave);
            && (t.socket.Some? ==> t.socket.value !in left.live)
            && Run(left, events).pending == map[] && Run(left, events).owners == t.owners
  {
    EveryStepKeepsInvariant(t, Leave);
    RunStaysAtRest(Step(t, Leave), events);
    hide Run;
  }

  /** The current socket closes with the deadline reached, and there was still a session to serve. */
  predicate GivesUp(t: Terminal, event: Event) {
    event.SocketClosed? && EndsReconnecting(t, event)
  }

  /** The page makes a socket: on request, or because a due timer fires. */
  predicate Connects(t: Terminal, event: Event) {
    (event.Connect? || (event.TimerFires? && Enabled(t, event))) && t.session.Some? && !t.leaving
  }

  /** An event of the socket that the page takes for its own. */
  predicate IsOwn(t: Terminal, event: Event) {
    (event.Opened? || event.Received? || event.SocketClosed? || event.SocketError?) && t.socket == Some(event.socket)
    && event.socket < |t.owners|
  }

  predicate ServesSession(t: Terminal) {
    t.socket.Some? && t.socket.value < |t.owners| && t.session == Some(t.owners[t.socket.value])
  }

  /** The session and the status after an event. */
  function ShownAfter(t: Terminal, event: Event, shown: (Option<nat>, SessionState)): (Option<nat>, SessionState) {
    match event
    case Save(session) => (Some(session), shown.1)
    case Forget(status) => (None, status)
    case Connect => if Connects(t, event) then (shown.0, Connecting) else shown
    case TimerFires(_) => if Connects(t, event) then (shown.0, Reconnecting) else shown
    case Opened(_) => if IsOwn(t, event) && ServesSession(t) then (shown.0, Connected) else shown
    case Received(_, ExitNotice) => if IsOwn(t, event) then (shown.0, Exited) else shown
    case Received(_, Garbled) => if IsOwn(t, event) then (shown.0, Failed) else shown
    case SocketError(_) => if IsOwn(t, event) then (shown.0, Reconnecting) else shown
    case SocketClosed(_) =>
      if GivesUp(t, event) then (None, Failed)
      else if IsOwn(t, event) && ServesSession(t) && !t.leaving && shown.1 != Exited then (shown.0, Reconnecting)
      else shown
    case _ => shown
  }

  function LastShown(t: Terminal, events: seq<Event>, shown: (Option<nat>, SessionState)): (Option<nat>, SessionState)
    decreases |events|
  {
    if events == [] then shown else LastShown(Step(t, events[0]), events[1..], ShownAfter(t, events[0], shown))
  }

  /** The session and the status that the page shows are those of the last events that set them, in every run. */
  lemma {:induction false} PageShowsTheLastChange(t: Terminal, events: seq<Event>)
    ensures var end := Run(t, events);
            (end.session, end.status) == LastShown(t, events, (t.session, t.status))
    decreases |events|
  {
    if events != [] {
      var next := Step(t, events[0]);
      assert (next.session, next.status) == ShownAfter(t, events[0], (t.session, t.status));
      hide Step, ShownAfter;
      PageShowsTheLastChange(next, events[1..]);
    }
  }

  /**
   Sockets that the page has replaced are out of play: what they do changes nothing but their own connection, and one
   that still opens is closed at once. A closed socket is live no more, the current one included.
   */
  lemma OutdatedSocketsAreIgnored(t: Terminal, event: Event)
    requires Invariant(t) && Enabled(t, event)
    requires event.Opened? || event.Received? || event.SocketClosed? || event.SocketError?
    ensures !IsOwn(t, event) ==>
        Step(t, event) == if event.Received? || event.SocketError? then t else t.(live := t.live - {event.socket})
    ensures event.SocketClosed? ==> event.socket !in Step(t, event).live
  {
  }

  /** No connection stays open beside the current one. */
  predicate OneConnection(t: Terminal) {
    forall socket :: socket in t.live ==> t.socket == Some(socket)
  }

  /** The page connects by itself only while it has no open connection. */
  predicate ConnectsWhenFree(t: Terminal, events: seq<Event>)
    decreases |events|
  {
    events == [] || ((events[0] == Connect ==> t.live == {}) && ConnectsWhenFree(Step(t, events[0]), events[1..]))
  }

  lemma StepKeepsOneConnection(t: Terminal, event: Event)
    requires Invariant(t) && OneConnection(t) && (event == Connect ==> t.live == {})
    ensures OneConnection(Step(t, event))
  {
  }

  /** Reconnecting never opens a second connection beside a first one. */
  lemma {:induction false} ConnectionsNeverOverlap(t: Terminal, events: seq<Event>)
    requires Invariant(t) && OneConnection(t) && ConnectsWhenFree(t, events)
    ensures OneConnection(Run(t, events))
    decreases |events|
  {
    hide Invariant, OneConnection, Step;
    if events != [] {
      EveryStepKeepsInvariant(t, events[0]);
      StepKeepsOneConnection(t, events[0]);
      ConnectionsNeverOverlap(Step(t, events[0]), events[1..]);
    }
  }

  /** A connection asked for by the page overlaps exactly when another one is still open: nothing closes that one. */
  lemma ConnectOverlapsExactlyWhen(t: Terminal)
    requires Invariant(t) && t.session.Some? && !t.leaving
    ensures OneConnection(Step(t, Connect)) <==> t.live == {}
  {
    var next := Step(t, Connect);
    if t.live != {} {
      var other :| other in t.live;
      assert other in next.live && next.socket != Some(other);
    }
  }

  /** A concrete run with two connections: another session is created while one is being restored and connected. */
  lemma SecondConnectLeavesTheFirstOpen(now: int)
    ensures var t := Run(Start(now), [Save(1), Connect, Opened(0), Save(2), Connect]);
            t.live == {0, 1} && t.socket == Some(1) && t.owners == [1, 2]
  {
  }

  /** The longest run of attempts: each one comes as soon as it may, and its socket closes at once. */
  function Failures(now: int, timer: nat, socket: nat, rounds: nat): seq<Event>
    requires rounds > 0
    decreases rounds
  {
    [Tick(now + RECONNECT_DELAY), TimerFires(timer)]
    + if rounds == 1 then []
      else [SocketClosed(socket)] + Failures(now + RECONNECT_DELAY, timer + 1, socket + 1, rounds - 1)
  }

  /** The socket has just closed, and `rounds` seconds begin before the deadline. */
  ghost predicate JustClosed(t: Terminal, rounds: nat) {
    && Invariant(t) && Waiting(t) && t.timers > 0 && t.handle == Some(t.timers - 1)
    && t.pending[t.handle.value] == t.now + RECONNECT_DELAY
    && t.deadline.value == t.now + RECONNECT_DELAY * rounds
  }

  lemma FailedRound(t: Terminal, rounds: nat)
    requires rounds > 0 && JustClosed(t, rounds)
    ensures var made := Step(Step(t, Tick(t.now + RECONNECT_DELAY)), TimerFires(t.timers - 1));
            && made.now == t.now + RECONNECT_DELAY && made.timers == t.timers && |made.owners| == |t.owners| + 1
            && Reconnects(Step(t, Tick(t.now + RECONNECT_DELAY)), TimerFires(t.timers - 1))
            && (rounds > 1 ==> !EndsReconnecting(made, SocketClosed(|t.owners|))
                               && JustClosed(Step(made, SocketClosed(|t.owners|)), rounds - 1))
  {
    var made := Step(Step(t, Tick(t.now + RECONNECT_DELAY)), TimerFires(t.timers - 1));
    assert made.owners[|t.owners|] == t.session.value;
    EveryStepKeepsInvariant(t, Tick(t.now + RECONNECT_DELAY));
    EveryStepKeepsInvariant(Step(t, Tick(t.now + RECONNECT_DELAY)), TimerFires(t.timers - 1));
    EveryStepKeepsInvariant(made, SocketClosed(|t.owners|));
  }

  lemma {:induction false} EveryRoundCanFail(t: Terminal, rounds: nat)
    requires rounds > 0 && JustClosed(t, rounds)
    ensures var events := Failures(t.now, t.timers - 1, |t.owners|, rounds);
            StaysDisconnected(t, events) && Attempts(t, events) == rounds
    decreases rounds
  {
    var events := Failures(t.now, t.timers - 1, |t.owners|, rounds);
    var ticked := Step(t, events[0]);
    var made := Step(ticked, events[1]);
    FailedRound(t, rounds);
    assert !EndsReconnecting(t, events[0]) && !EndsReconnecting(ticked, events[1]) && !Reconnects(t, events[0]);
    hide Step, EndsReconnecting, Reconnects, JustClosed;
    var rest := events[1..][1..];
    assert Attempts(t, events) == Attempts(ticked, events[1..]) == 1 + Attempts(made, rest);
    assert StaysDisconnected(t, events) == StaysDisconnected(made, rest);
    if rounds > 1 {
      var closed := Step(made, SocketClosed(|t.owners|));
      EveryRoundCanFail(closed, rounds - 1);
    }
  }

  lemma FirstCloseOpensTheWindow(t: Terminal, socket: nat)
    requires Invariant(t) && t.socket == Some(socket) && t.deadline.None?
    requires !t.leaving && t.session == Some(t.owners[socket]) && t.status != Exited
    ensures !EndsReconnecting(t, SocketClosed(socket)) && !Reconnects(t, SocketClosed(socket))
    ensures JustClosed(Step(t, SocketClosed(socket)), 30) && Step(t, SocketClosed(socket)).timers > 0
  {
    EveryStepKeepsInvariant(t, SocketClosed(socket));
  }

  /** The bound is exact: after the close of an open connection there can be as many as 30 attempts. */
  lemma ThirtyAttemptsCanHappen(t: Terminal, socket: nat)
    requires Invariant(t) && t.socket == Some(socket) && t.deadline.None?
    requires !t.leaving && t.session == Some(t.owners[socket]) && t.status != Exited
    ensures exists events :: StaysDisconnected(t, events) && Attempts(t, events) == 30
  {
    hide Step, Failures, EndsReconnecting, Reconnects, Invariant, JustClosed;
    var closed := Step(t, SocketClosed(socket));
    FirstCloseOpensTheWindow(t, socket);
    var rest := Failures(closed.now, closed.timers - 1, |closed.owners|, 30);
    EveryRoundCanFail(closed, 30);
    var events := [SocketClosed(socket)] + rest;
    assert events[1..] == rest;
    assert StaysDisconnected(t, events) && Attempts(t, events) == 30;
  }
}
