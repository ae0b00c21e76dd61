/**
 Pasting and uploading in the file manager of `app.js`: items are handled one after the other; when a destination exists
 the user is asked, and may answer for this item or for all.

 A run is driven by a list of turns, one for every await of the source. A turn holds what the environment would answer
 whichever question is pending, so every list of turns is a possible environment; a run whose turns are used up waits.
 The log of a run is a history that the source does not keep.
 */
module FileConflicts {
  import opened Wrappers

  datatype Conflict = Reject | Overwrite | Rename

  datatype Choice = Use(conflict: Conflict) | Skip | Cancel

  /** The answer of the conflict dialog, which offers overwriting, renaming, skipping and cancelling. */
  datatype Decision = Decision(choice: Choice, applyAll: bool)

  /** How a request ends. Failed also stands for a task that could not be made or watched; only uploads are Aborted. */
  datatype Reply = Done | Exists | Aborted | Failed

  /**
   What happened for an item: a folder was found or created, a request went out, it was replied to, the user answered.
   */
  datatype Entry =
    | Ensured(item: nat, folder: nat)
    | Sent(item: nat, conflict: Conflict)
    | Replied(item: nat, reply: Reply)
    | Asked(item: nat, decision: Decision)

  /** The `conflict` a new item starts with. */
  function FirstConflict(forAll: Option<Choice>): Conflict {
    if forAll.Some? && forAll.value.Use? then forAll.value.conflict else Reject
  }

  /** The latest answer given for all items. */
  function AnswerForAll(log: seq<Entry>): Option<Choice> {
    if log == [] then None
    else
      var last := log[|log| - 1];
      if last.Asked? && last.decision.applyAll && last.decision.choice != Cancel then Some(last.decision.choice)
      else AnswerForAll(log[..|log| - 1])
  }

  /** The user has just chosen a mode for the item. */
  predicate JustChosen(log: seq<Entry>, item: nat) {
    log != [] && log[|log| - 1].Asked? && log[|log| - 1].item == item && log[|log| - 1].decision.choice.Use?
  }

  /** What the user wants for the next request of an item: the mode just chosen for it, or else the answer for all. */
  function Wanted(log: seq<Entry>, item: nat): Conflict {
    if JustChosen(log, item) then log[|log| - 1].decision.choice.conflict else FirstConflict(AnswerForAll(log))
  }

  /** No request, reply or answer in the log is about the item, and nothing about a later one. */
  ghost predicate NothingSent(log: seq<Entry>, item: nat) {
    forall k :: 0 <= k < |log| ==> log[k].item < item || (log[k].item == item && log[k].Ensured?)
  }

  /**
   A request opens its item or follows the mode just chosen; a reply follows its request; the user is asked only when
   the reply was that the destination exists, and not after skipping for all.
   */
  ghost predicate MayFollow(log: seq<Entry>, entry: Entry) {
    match entry
    case Ensured(item, _) => NothingSent(log, item)
    case Sent(item, conflict) => conflict == Wanted(log, item) && (NothingSent(log, item) || JustChosen(log, item))
    case Replied(item, _) => log != [] && log[|log| - 1].Sent? && log[|log| - 1].item == item
    case Asked(item, _) => log != [] && log[|log| - 1] == Replied(item, Exists) && AnswerForAll(log) != Some(Skip)
  }

  /**
   The protocol of requests, replies and answers; every request carries exactly the mode that the user wanted for it.
   */
  ghost predicate Orderly(log: seq<Entry>) {
    forall k :: 0 <= k < |log| ==> MayFollow(log[..k], log[k])
  }

  lemma OrderlyAppend(log: seq<Entry>, entry: Entry)
    requires Orderly(log) && MayFollow(log, entry)
    ensures Orderly(log + [entry])
  {
    hide MayFollow;
    var longer := log + [entry];
    forall k | 0 <= k < |longer| ensures MayFollow(longer[..k], longer[k]) {
      assert longer[..k] == if k < |log| then log[..k] else log;
    }
  }

  lemma {:induction false} AnswerForAllWasGiven(log: seq<Entry>)
    requires AnswerForAll(log).Some?
    ensures exists k :: 0 <= k < |log| && log[k].Asked? && log[k].decision == Decision(AnswerForAll(log).value, true)
  {
    var last := log[|log| - 1];
    if !(last.Asked? && last.decision.applyAll && last.decision.choice != Cancel) {
      AnswerForAllWasGiven(log[..|log| - 1]);
      var k :| 0 <= k < |log| - 1 && log[..|log| - 1][k].Asked?
          && log[..|log| - 1][k].decision == Decision(AnswerForAll(log).value, true);
      assert log[k].decision == Decision(AnswerForAll(log).value, true);
    }
  }

  /**
   In words: a request carries overwrite or rename only after the user chose just that, for the same item or for all.
   */
  lemma ConflictModeWasChosen(log: seq<Entry>, k: nat)
    requires Orderly(log) && k < |log| && log[k].Sent? && log[k].conflict != Reject
    ensures exists j :: 0 <= j < k && log[j].Asked? && log[j].decision.choice == Use(log[k].conflict)
              && (log[j].item == log[k].item || log[j].decision.applyAll)
  {
    var before := log[..k];
    assert MayFollow(before, log[k]);
    if JustChosen(before, log[k].item) {
      assert before[k - 1] == log[k - 1];
    } else {
      AnswerForAllWasGiven(before);
      var j :| 0 <= j < k && before[j].Asked? && before[j].decision == Decision(AnswerForAll(before).value, true);
      assert log[j] == before[j];
    }
  }

  lemma AnswerForAllOther(log: seq<Entry>, entry: Entry)
    requires !entry.Asked?
    ensures AnswerForAll(log + [entry]) == AnswerForAll(log)
  {
    assert (log + [entry])[..|log|] == log;
  }

  lemma AnswerForAllAsked(log: seq<Entry>, item: nat, decision: Decision)
    ensures AnswerForAll(log + [Asked(item, decision)])
            == if decision.applyAll && decision.choice != Cancel then Some(decision.choice) else AnswerForAll(log)
  {
    assert (log + [Asked(item, decision)])[..|log|] == log;
  }

  /** The log is in order and names items up to the present one. */
  ghost predicate LogFits(log: seq<Entry>, item: nat) {
    Orderly(log) && forall k :: 0 <= k < |log| ==> log[k].item <= item
  }

  /** A request for the item is under way. */
  ghost predicate Awaiting(log: seq<Entry>, item: nat) {
    LogFits(log, item) && Replied(item, Done) !in log && log != [] && log[|log| - 1].Sent?
        && log[|log| - 1].item == item
  }

  /** The destination exists, and the user is being asked. */
  ghost predicate Deciding(log: seq<Entry>, item: nat) {
    && LogFits(log, item) && Replied(item, Done) !in log && log != [] && log[|log| - 1] == Replied(item, Exists)
    && AnswerForAll(log) != Some(Skip)
  }

  ghost predicate SkipChosen(log: seq<Entry>, item: nat) {
    exists k :: 0 <= k < |log| && log[k].Asked? && log[k].decision.choice == Skip
        && (log[k].item == item || log[k].decision.applyAll)
  }

  /** Opening a new item with the answer for all is what the user wants. */
  lemma NewRequestFits(log: seq<Entry>, item: nat)
    requires Orderly(log) && NothingSent(log, item)
    ensures Awaiting(log + [Sent(item, FirstConflict(AnswerForAll(log)))], item)
    ensures AnswerForAll(log + [Sent(item, FirstConflict(AnswerForAll(log)))]) == AnswerForAll(log)
  {
    hide Orderly;
    var entry := Sent(item, FirstConflict(AnswerForAll(log)));
    OrderlyAppend(log, entry);
    AnswerForAllOther(log, entry);
  }

  lemma ReplyFits(log: seq<Entry>, item: nat, reply: Reply)
    requires Awaiting(log, item)
    ensures var longer := log + [Replied(item, reply)];
            && LogFits(longer, item) && AnswerForAll(longer) == AnswerForAll(log) && Replied(item, reply) in longer
            && (reply != Done ==> Replied(item, Done) !in longer)
            && (reply == Exists && AnswerForAll(log) != Some(Skip) ==> Deciding(longer, item))
  {
    hide Orderly, AnswerForAll;
    var entry := Replied(item, reply);
    OrderlyAppend(log, entry);
    AnswerForAllOther(log, entry);
    assert (log + [entry])[|log|] == entry;
  }

  lemma AnswerFits(log: seq<Entry>, item: nat, decision: Decision)
    requires Deciding(log, item)
    ensures var longer := log + [Asked(item, decision)];
            && LogFits(longer, item) && Replied(item, Done) !in longer && Replied(item, Exists) in longer
            && AnswerForAll(longer) == (if decision.applyAll && decision.choice != Cancel then Some(decision.choice)
                                         else AnswerForAll(log))
            && (decision.choice == Skip ==> SkipChosen(longer, item))
  {
    hide Orderly, AnswerForAll;
    var entry := Asked(item, decision);
    OrderlyAppend(log, entry);
    AnswerForAllAsked(log, item, decision);
    assert (log + [entry])[|log|] == entry && (log + [entry])[|log| - 1] == log[|log| - 1];
  }

  /** Trying an item again with the mode just chosen is what the user wants. */
  lemma RetryFits(log: seq<Entry>, item: nat, decision: Decision)
    requires Deciding(log, item) && decision.choice.Use?
    ensures var longer := log + [Asked(item, decision)] + [Sent(item, decision.choice.conflict)];
            && Awaiting(longer, item)
            && AnswerForAll(longer) == if decision.applyAll then Some(decision.choice) else AnswerForAll(log)
  {
    hide Orderly, AnswerForAll, FirstConflict;
    AnswerFits(log, item, decision);
    var asked := log + [Asked(item, decision)];
    assert JustChosen(asked, item);
    OrderlyAppend(asked, Sent(item, decision.choice.conflict));
    AnswerForAllOther(asked, Sent(item, decision.choice.conflict));
  }

  datatype Outcome = WasDone | WasCreated | WasSkipped | WasCancelled

  /**
   An outcome agrees with what happened: done exactly when the server said so; skipped when the destination exists and
   the user chose to skip, for the item or for all; cancelled when the task was, or its request aborted.
   */
  ghost predicate OutcomeFits(log: seq<Entry>, cancelled: set<nat>, i: nat, outcome: Outcome) {
    && (outcome == WasDone <==> Replied(i, Done) in log)
    && (outcome == WasSkipped ==> Replied(i, Exists) in log && SkipChosen(log, i))
    && (outcome == WasCancelled ==> i in cancelled || Replied(i, Aborted) in log)
  }

  ghost predicate OutcomesFit(log: seq<Entry>, cancelled: set<nat>, outcomes: seq<Outcome>) {
    forall i :: 0 <= i < |outcomes| ==> OutcomeFits(log, cancelled, i, outcomes[i])
  }

  lemma LongerLogKeepsOutcomes(log: seq<Entry>, entry: Entry, cancelled: set<nat>, outcomes: seq<Outcome>)
    requires OutcomesFit(log, cancelled, outcomes) && |outcomes| <= entry.item
    ensures OutcomesFit(log + [entry], cancelled, outcomes)
  {
    forall i | 0 <= i < |outcomes| ensures OutcomeFits(log + [entry], cancelled, i, outcomes[i]) {
      assert OutcomeFits(log, cancelled, i, outcomes[i]);
      if SkipChosen(log, i) {
        var k :| 0 <= k < |log| && log[k].Asked? && log[k].decision.choice == Skip
            && (log[k].item == i || log[k].decision.applyAll);
        assert (log + [entry])[k] == log[k];
      }
    }
  }

  lemma MoreCancelledKeepsOutcomes(log: seq<Entry>, cancelled: set<nat>, more: set<nat>, outcomes: seq<Outcome>)
    requires OutcomesFit(log, cancelled, outcomes)
    ensures OutcomesFit(log, cancelled + more, outcomes)
  {
    forall i | 0 <= i < |outcomes| ensures OutcomeFits(log, cancelled + more, i, outcomes[i]) {
      assert OutcomeFits(log, cancelled, i, outcomes[i]);
    }
  }

  lemma OneMoreOutcome(log: seq<Entry>, cancelled: set<nat>, outcomes: seq<Outcome>, outcome: Outcome)
    requires OutcomesFit(log, cancelled, outcomes) && OutcomeFits(log, cancelled, |outcomes|, outcome)
    ensures OutcomesFit(log, cancelled, outcomes + [outcome])
    ensures (outcomes + [outcome])[..|outcomes|] == outcomes
  {
    hide OutcomeFits;
  }

  function Count(outcomes: seq<Outcome>, outcome: Outcome): nat {
    if outcomes == [] then 0
    else Count(outcomes[..|outcomes| - 1], outcome) + if outcomes[|outcomes| - 1] == outcome then 1 else 0
  }

  lemma {:induction false} CountsAddUp(outcomes: seq<Outcome>)
    ensures Count(outcomes, WasDone) + Count(outcomes, WasCreated) + Count(outcomes, WasSkipped)
        + Count(outcomes, WasCancelled) == |outcomes|
    ensures WasCreated !in outcomes ==> Count(outcomes, WasCreated) == 0
    ensures WasCancelled !in outcomes ==> Count(outcomes, WasCancelled) == 0
  {
    if outcomes != [] { CountsAddUp(outcomes[..|outcomes| - 1]); }
  }

  datatype Status = Running | Stopped | Complete

  datatype PasteTurn = PasteTurn(reply: Reply, answer: Decision)

  /** `asking` says that the dialog is open; otherwise a request for `item` is under way. */
  datatype Paste = Paste(total: nat, item: nat, forAll: Option<Choice>, conflict: Conflict, asking: bool,
                         skipped: nat, outcomes: seq<Outcome>, status: Status, log: seq<Entry>)

  /** The head of the outer loop: the next item's first request, or the end. */
  function PasteNext(p: Paste): Paste {
    if p.item < p.total then
      var conflict := FirstConflict(p.forAll);
      p.(conflict := conflict, asking := false, log := p.log + [Sent(p.item, conflict)])
    else p.(conflict := Reject, asking := false, status := Complete)
  }

  function PasteItemEnds(p: Paste, outcome: Outcome): Paste {
    PasteNext(p.(item := p.item + 1, outcomes := p.outcomes + [outcome]))
  }

  function PasteStart(total: nat): Paste {
    PasteNext(Paste(total, 0, None, Reject, false, 0, [], Running, []))
  }

  function PasteStep(p: Paste, turn: PasteTurn): Paste {
    if p.status != Running then p
    else if !p.asking then
      var replied := p.(log := p.log + [Replied(p.item, turn.reply)]);
      match turn.reply
      case Done => PasteItemEnds(replied, WasDone)
      case Exists =>
        if p.forAll == Some(Skip) then PasteItemEnds(replied.(skipped := p.skipped + 1), WasSkipped)
        else replied.(asking := true)
      case _ => replied.(status := Stopped)
    else
      var answer := turn.answer;
      var forAll := if answer.applyAll && answer.choice != Cancel then Some(answer.choice) else p.forAll;
      var asked := p.(log := p.log + [Asked(p.item, answer)], forAll := forAll);
      match turn.answer.choice
      case Cancel => asked.(status := Stopped)
      case Skip => PasteItemEnds(asked.(skipped := p.skipped + 1), WasSkipped)
      case Use(conflict) => asked.(conflict := conflict, asking := false, log := asked.log + [Sent(p.item, conflict)])
  }

  function PasteRun(p: Paste, turns: seq<PasteTurn>): Paste
    decreases |turns|
  {
    if turns == [] then p else PasteRun(PasteStep(p, turns[0]), turns[1..])
  }

  lemma {:induction false} FinishedPasteStays(p: Paste, turns: seq<PasteTurn>)
    requires p.status != Running
    ensures PasteRun(p, turns) == p
    decreases |turns|
  {
    if turns != [] { FinishedPasteStays(p, turns[1..]); }
  }

  lemma OnePasteTurn(p: Paste, turns: seq<PasteTurn>, used: nat)
    requires used < |turns|
    ensures PasteRun(p, turns[used..]) == PasteRun(PasteStep(p, turns[used]), turns[used + 1..])
  {
    assert turns[used..][0] == turns[used] && turns[used..][1..] == turns[used + 1..];
  }

  lemma WaitingPaste(p: Paste, turns: seq<PasteTurn>)
    ensures PasteRun(p, turns[|turns|..]) == p
  {
  }

  /** pasteFiles: the loop over the sources. */
  method PasteFiles(total: nat, turns: seq<PasteTurn>) returns (end: Paste)
    ensures end == PasteRun(PasteStart(total), turns)
  {
    hide PasteRun;
    end := Paste(total, 0, None, Reject, false, 0, [], Running, []);
    var used := 0;
    ghost var whole := PasteRun(PasteStart(total), turns);
    assert turns[0..] == turns;
    while end.item < total
      invariant end.total == total && end.item <= total && 0 <= used <= |turns|
      invariant end.status == Running && end.conflict == Reject && !end.asking
      invariant whole == PasteRun(PasteNext(end), turns[used..])
    {
      var stopped;
      end, used, stopped := PasteSource(end, turns, used);
      if stopped { return; }
    }
    end := end.(status := Complete);
    FinishedPasteStays(end, turns[used..]);
  }

  /**
   The loop over the attempts for one source. It ends with the source settled, or `stopped` when the run ends or waits.
   */
  method PasteSource(p: Paste, turns: seq<PasteTurn>, begin: nat) returns (v: Paste, used: nat, stopped: bool)
    requires p.status == Running && p.item < p.total && p.conflict == Reject && !p.asking && begin <= |turns|
    ensures begin <= used <= |turns|
    ensures stopped ==> PasteRun(PasteNext(p), turns[begin..]) == v
    ensures !stopped ==> PasteRun(PasteNext(p), turns[begin..]) == PasteRun(PasteNext(v), turns[used..])
    ensures !stopped ==> v.total == p.total && v.item == p.item + 1 && v.status == p.status
    ensures !stopped ==> v.conflict == Reject && !v.asking
  {
    hide PasteRun, FirstConflict;
    used, stopped := begin, true;
    var conflict := FirstConflict(p.forAll);
    v := p.(conflict := conflict, log := p.log + [Sent(p.item, conflict)]);
    ghost var whole := PasteRun(PasteNext(p), turns[begin..]);
    while used < |turns|
      invariant begin <= used <= |turns| && whole == PasteRun(v, turns[used..])
      invariant v == p.(forAll := v.forAll, conflict := v.conflict, skipped := v.skipped, outcomes := v.outcomes,
                        log := v.log)
    {
      OnePasteTurn(v, turns, used);
      var reply := turns[used].reply;
      used := used + 1;
      v := v.(log := v.log + [Replied(v.item, reply)]);
      if reply == Done {
        v := v.(item := v.item + 1, conflict := Reject, outcomes := v.outcomes + [WasDone]);
        return v, used, false;
      }
      if reply != Exists {
        v := v.(status := Stopped);
        FinishedPasteStays(v, turns[used..]);
        return;
      }
      if v.forAll == Some(Skip) {
        v := v.(item := v.item + 1, conflict := Reject, skipped := v.skipped + 1,
                outcomes := v.outcomes + [WasSkipped]);
        return v, used, false;
      }
      v := v.(asking := true);
      if used == |turns| {
        WaitingPaste(v, turns);
        return;
      }
      OnePasteTurn(v, turns, used);
      var decision := turns[used].answer;
      used := used + 1;
      v := v.(log := v.log + [Asked(v.item, decision)]);
      if decision.choice == Cancel {
        v := v.(status := Stopped);
        FinishedPasteStays(v, turns[used..]);
        return;
      }
      if decision.applyAll { v := v.(forAll := Some(decision.choice)); }
      if decision.choice == Skip {
        v := v.(item := v.item + 1, conflict := Reject, asking := false, skipped := v.skipped + 1,
                outcomes := v.outcomes + [WasSkipped]);
        return v, used, false;
      }
      v := v.(conflict := decision.choice.conflict, asking := false,
              log := v.log + [Sent(v.item, decision.choice.conflict)]);
    }
    WaitingPaste(v, turns);
  }

  ghost predicate PasteBookkeeping(p: Paste) {
    && p.item == |p.outcomes| <= p.total
    && p.skipped == Count(p.outcomes, WasSkipped)
    && p.forAll == AnswerForAll(p.log)
    && WasCreated !in p.outcomes && WasCancelled !in p.outcomes
    && OutcomesFit(p.log, {}, p.outcomes)
  }

  ghost predicate PasteFits(p: Paste) {
    && PasteBookkeeping(p) && LogFits(p.log, p.item)
    && (p.status == Running ==>
        && p.item < p.total
        && if p.asking then Deciding(p.log, p.item)
           else Awaiting(p.log, p.item) && p.log[|p.log| - 1] == Sent(p.item, p.conflict))
    && (p.status == Complete ==> p.item == p.total)
  }

  lemma PasteNextFits(p: Paste)
    requires PasteBookkeeping(p) && Orderly(p.log) && NothingSent(p.log, p.item) && p.status == Running
    ensures PasteFits(PasteNext(p))
  {
    hide Orderly, OutcomesFit, AnswerForAll, Count;
    if p.item < p.total {
      var entry := Sent(p.item, FirstConflict(p.forAll));
      NewRequestFits(p.log, p.item);
      LongerLogKeepsOutcomes(p.log, entry, {}, p.outcomes);
    }
  }

  lemma PasteItemEndFits(p: Paste, outcome: Outcome)
    requires PasteBookkeeping(p) && LogFits(p.log, p.item) && p.item < p.total && p.status == Running
    requires outcome == WasDone || outcome == WasSkipped
    requires OutcomeFits(p.log, {}, p.item, outcome)
    ensures PasteFits(PasteItemEnds(if outcome == WasSkipped then p.(skipped := p.skipped + 1) else p, outcome))
  {
    hide Orderly, OutcomesFit, OutcomeFits, AnswerForAll;
    OneMoreOutcome(p.log, {}, p.outcomes, outcome);
    var counted := if outcome == WasSkipped then p.(skipped := p.skipped + 1) else p;
    PasteNextFits(counted.(item := p.item + 1, outcomes := p.outcomes + [outcome]));
  }

  lemma PasteReplyFits(p: Paste, turn: PasteTurn)
    requires PasteFits(p) && p.status == Running && !p.asking
    ensures PasteFits(PasteStep(p, turn))
  {
    hide Orderly, OutcomesFit, AnswerForAll, Count, PasteItemEnds;
    var replied := p.(log := p.log + [Replied(p.item, turn.reply)]);
    ReplyFits(p.log, p.item, turn.reply);
    LongerLogKeepsOutcomes(p.log, Replied(p.item, turn.reply), {}, p.outcomes);
    if turn.reply.Done? {
      PasteItemEndFits(replied, WasDone);
    } else if turn.reply.Exists? && p.forAll == Some(Skip) {
      AnswerForAllWasGiven(replied.log);
      assert SkipChosen(replied.log, p.item);
      PasteItemEndFits(replied, WasSkipped);
    }
  }

  lemma PasteAnswerFits(p: Paste, turn: PasteTurn)
    requires PasteFits(p) && p.status == Running && p.asking
    ensures PasteFits(PasteStep(p, turn))
  {
    hide Orderly, OutcomesFit, AnswerForAll, Count, PasteItemEnds;
    var entry := Asked(p.item, turn.answer);
    AnswerFits(p.log, p.item, turn.answer);
    LongerLogKeepsOutcomes(p.log, entry, {}, p.outcomes);
    var asked := p.(log := p.log + [entry],
                    forAll := if turn.answer.applyAll && turn.answer.choice != Cancel then Some(turn.answer.choice)
                        else p.forAll);
    match turn.answer.choice
    case Cancel =>
    case Skip => PasteItemEndFits(asked, WasSkipped);
    case Use(conflict) =>
      RetryFits(p.log, p.item, turn.answer);
      LongerLogKeepsOutcomes(asked.log, Sent(p.item, conflict), {}, p.outcomes);
  }

  lemma {:induction false} PasteRunFits(p: Paste, turns: seq<PasteTurn>)
    requires PasteFits(p)
    ensures PasteFits(PasteRun(p, turns)) && PasteRun(p, turns).total == p.total
    decreases |turns|
  {
    if p.status != Running {
      FinishedPasteStays(p, turns);
    } else if turns != [] {
      assert PasteStep(p, turns[0]).total == p.total;
      hide PasteStep;
      if p.asking { PasteAnswerFits(p, turns[0]); } else { PasteReplyFits(p, turns[0]); }
      hide PasteFits;
      PasteRunFits(PasteStep(p, turns[0]), turns[1..]);
    }
  }

  lemma NothingLoggedYet()
    ensures Orderly([]) && AnswerForAll([]) == None
  {
  }

  /**
   For every sequence of server replies and user answers: requests, replies and answers follow the protocol, every paste
   request carrying exactly the conflict mode that the user wanted for it; every source passed so far is pasted exactly
   when the server said so, and else skipped by choice; the skip count is exact; and a run that is not stopped ends with
   pasted and skipped sources making up all.
   */
  lemma PasteHonoursTheUser(total: nat, turns: seq<PasteTurn>)
    ensures var end := PasteRun(PasteStart(total), turns);
            && Orderly(end.log)
            && OutcomesFit(end.log, {}, end.outcomes) && |end.outcomes| == end.item <= total
            && WasCreated !in end.outcomes && WasCancelled !in end.outcomes
            && end.skipped == Count(end.outcomes, WasSkipped)
            && (end.status == Running && !end.asking ==>
                  end.log != [] && end.log[|end.log| - 1] == Sent(end.item, end.conflict))
            && (end.status == Complete ==> Count(end.outcomes, WasDone) + end.skipped == total)
  {
    hide PasteRun, Orderly, AnswerForAll;
    NothingLoggedYet();
    PasteNextFits(Paste(total, 0, None, Reject, false, 0, [], Running, []));
    PasteRunFits(PasteStart(total), turns);
    CountsAddUp(PasteRun(PasteStart(total), turns).outcomes);
  }

  /** A dropped file or directory: whether every path segment is a valid name, and how many folders must exist first. */
  datatype UploadItem = UploadItem(directory: bool, validName: bool, folders: nat)

  datatype StatReply = Missing | Directory | OtherType | StatFailed

  /** The tasks cancelled since the last turn, and the answer to whatever is pending. */
  datatype UploadTurn = UploadTurn(cancels: set<nat>, stat: StatReply, created: bool, reply: Reply, answer: Decision)

  datatype Stage = Between | Statting(folder: nat) | Creating(folder: nat) | Uploading(conflict: Conflict) | Asking

  datatype Upload = Upload(items: seq<UploadItem>, item: nat, forAll: Option<Choice>, stage: Stage, cancelled: set<nat>,
                           skipped: nat, outcomes: seq<Outcome>, status: Status, log: seq<Entry>)

  /** After the folders up to `folder`: the next one, the end of a directory item, or the request of a file. */
  function UploadFolder(u: Upload, folder: nat): (v: Upload)
    requires u.item < |u.items|
    ensures v.items == u.items && u.item <= v.item
    decreases |u.items| - u.item, 0
  {
    if folder < u.items[u.item].folders then u.(stage := Statting(folder))
    else if u.items[u.item].directory then UploadItemEnds(u, WasCreated)
    else UploadRequest(u, FirstConflict(u.forAll))
  }

  function FolderEnsured(u: Upload, folder: nat): Upload {
    u.(log := u.log + [Ensured(u.item, folder)])
  }

  function UploadRequest(u: Upload, conflict: Conflict): Upload {
    u.(stage := Uploading(conflict), log := u.log + [Sent(u.item, conflict)])
  }

  function UploadItemEnds(u: Upload, outcome: Outcome): (v: Upload)
    requires u.item < |u.items|
    ensures v.items == u.items && u.item < v.item
    decreases |u.items| - u.item - 1, 2
  {
    UploadNext(u.(item := u.item + 1, stage := Between, outcomes := u.outcomes + [outcome]))
  }

  /** The head of the outer loop: passes over cancelled items, stops at an invalid name, begins the next item. */
  function UploadNext(u: Upload): (v: Upload)
    requires u.item <= |u.items|
    ensures v.items == u.items && u.item <= v.item
    decreases |u.items| - u.item, 1
  {
    if u.item == |u.items| then u.(stage := Between, status := Complete)
    else if u.item in u.cancelled then UploadItemEnds(u, WasCancelled)
    else if !u.items[u.item].validName then u.(stage := Between, status := Stopped)
    else UploadFolder(u, 0)
  }

  function UploadStart(items: seq<UploadItem>): Upload {
    UploadNext(Upload(items, 0, None, Between, {}, 0, [], Running, []))
  }

  /** What the reply to a request, already in the log, leads to; a cancelled task ends unless its file is stored. */
  function AfterReply(u: Upload, reply: Reply): (v: Upload)
    requires u.item < |u.items|
    ensures v.items == u.items
  {
    if reply == Done then UploadItemEnds(u, WasDone)
    else if u.item in u.cancelled || reply == Aborted then UploadItemEnds(u, WasCancelled)
    else if reply == Failed then u.(status := Stopped)
    else if u.forAll == Some(Skip) then UploadItemEnds(u.(skipped := u.skipped + 1), WasSkipped)
    else u.(stage := Asking)
  }

  function AfterAnswer(u: Upload, answer: Decision): (v: Upload)
    requires u.item < |u.items|
    ensures v.items == u.items
  {
    var asked := u.(log := u.log + [Asked(u.item, answer)],
                    forAll := if answer.applyAll && answer.choice != Cancel then Some(answer.choice) else u.forAll);
    match answer.choice
    case Cancel => asked.(status := Stopped)
    case Skip => UploadItemEnds(asked.(skipped := u.skipped + 1), WasSkipped)
    case Use(conflict) => UploadRequest(asked, conflict)
  }

  function UploadStep(u: Upload, turn: UploadTurn): (next: Upload)
    ensures next.items == u.items
  {
    var v := u.(cancelled := u.cancelled + turn.cancels);
    if u.status != Running || u.item >= |u.items| then u
    else
      match u.stage
      case Between => u
      case Statting(folder) =>
        (match turn.stat
         case Missing => v.(stage := Creating(folder))
         case Directory => UploadFolder(FolderEnsured(v, folder), folder + 1)
         case _ => v.(status := Stopped))
      case Creating(folder) =>
        if turn.created then UploadFolder(FolderEnsured(v, folder), folder + 1) else v.(status := Stopped)
      case Uploading(_) => AfterReply(v.(log := v.log + [Replied(v.item, turn.reply)]), turn.reply)
      case Asking => AfterAnswer(v, turn.answer)
  }

  function UploadRun(u: Upload, turns: seq<UploadTurn>): (end: Upload)
    ensures end.items == u.items
    decreases |turns|
  {
    if turns == [] then u else UploadRun(UploadStep(u, turns[0]), turns[1..])
  }

  lemma {:induction false} FinishedUploadStays(u: Upload, turns: seq<UploadTurn>)
    requires u.status != Running
    ensures UploadRun(u, turns) == u
    decreases |turns|
  {
    if turns != [] { FinishedUploadStays(u, turns[1..]); }
  }

  lemma OneTurn(u: Upload, turns: seq<UploadTurn>, used: nat)
    requires used < |turns|
    ensures UploadRun(u, turns[used..]) == UploadRun(UploadStep(u, turns[used]), turns[used + 1..])
  {
    assert turns[used..][0] == turns[used] && turns[used..][1..] == turns[used + 1..];
  }

  /** What follows the folders does not depend on the stage the last turn was in. */
  lemma FolderIgnoresStage(u: Upload, stage: Stage, folder: nat)
    requires u.item < |u.items|
    ensures UploadFolder(u.(stage := stage), folder) == UploadFolder(u, folder)
  {
    var v := u.(stage := stage);
    assert v.(item := v.item + 1, stage := Between, outcomes := v.outcomes + [WasCreated])
        == u.(item := u.item + 1, stage := Between, outcomes := u.outcomes + [WasCreated]);
  }

  /** What the answer about one folder leads to. */
  lemma StatTurn(u: Upload, turns: seq<UploadTurn>, used: nat, folder: nat)
    requires u.status == Running && u.item < |u.items| && folder < u.items[u.item].folders && used < |turns|
    ensures var v := u.(cancelled := u.cancelled + turns[used].cancels);
            UploadRun(UploadFolder(u, folder), turns[used..])
            == match turns[used].stat
               case Missing => UploadRun(v.(stage := Creating(folder)), turns[used + 1..])
               case Directory => UploadRun(UploadFolder(FolderEnsured(v, folder), folder + 1), turns[used + 1..])
               case _ => v.(stage := Statting(folder), status := Stopped)
  {
    var v := u.(cancelled := u.cancelled + turns[used].cancels);
    OneTurn(u.(stage := Statting(folder)), turns, used);
    FolderIgnoresStage(FolderEnsured(v, folder), Statting(folder), folder + 1);
    FinishedUploadStays(v.(stage := Statting(folder), status := Stopped), turns[used + 1..]);
  }

  lemma CreateTurn(u: Upload, turns: seq<UploadTurn>, used: nat, folder: nat)
    requires u.status == Running && u.item < |u.items| && folder < u.items[u.item].folders && used < |turns|
    ensures var v := u.(cancelled := u.cancelled + turns[used].cancels);
            UploadRun(u.(stage := Creating(folder)), turns[used..])
            == if turns[used].created
               then UploadRun(UploadFolder(FolderEnsured(v, folder), folder + 1), turns[used + 1..])
               else v.(stage := Creating(folder), status := Stopped)
  {
    var v := u.(cancelled := u.cancelled + turns[used].cancels);
    OneTurn(u.(stage := Creating(folder)), turns, used);
    FolderIgnoresStage(FolderEnsured(v, folder), Creating(folder), folder + 1);
    FinishedUploadStays(v.(stage := Creating(folder), status := Stopped), turns[used + 1..]);
  }

  lemma WaitingRun(u: Upload, turns: seq<UploadTurn>)
    ensures UploadRun(u, turns[|turns|..]) == u
  {
  }

  /**
   The loop over the folders of one item. The run goes on with `v`, or has `ended` with it when it is stopped or waits
   among the folders.
   */
  method EnsureFolders(u: Upload, turns: seq<UploadTurn>, begin: nat) returns (v: Upload, used: nat, ended: bool)
    requires u.status == Running && u.item < |u.items| && begin <= |turns|
    ensures begin <= used <= |turns| && v.item == u.item && v.items == u.items
    ensures ended ==> UploadRun(UploadFolder(u, 0), turns[begin..]) == v
    ensures !ended ==> v.status == Running
                       && UploadRun(UploadFolder(u, 0), turns[begin..])
                          == UploadRun(UploadFolder(v, u.items[u.item].folders), turns[used..])
  {
    hide UploadRun, UploadItemEnds, UploadRequest, UploadNext;
    v, used, ended := u, begin, true;
    ghost var whole := UploadRun(UploadFolder(u, 0), turns[begin..]);
    var folder := 0;
    while folder < u.items[u.item].folders
      invariant 0 <= folder <= u.items[u.item].folders && begin <= used <= |turns|
      invariant v.status == Running && v.item == u.item && v.items == u.items
      invariant whole == UploadRun(UploadFolder(v, folder), turns[used..])
    {
      if used == |turns| {
        v := v.(stage := Statting(folder));
        WaitingRun(v, turns);
        return;
      }
      StatTurn(v, turns, used, folder);
      var stat := turns[used].stat;
      v := v.(cancelled := v.cancelled + turns[used].cancels);
      used := used + 1;
      if stat == OtherType || stat == StatFailed {
        return v.(stage := Statting(folder), status := Stopped), used, true;
      }
      if stat == Missing {
        if used == |turns| {
          v := v.(stage := Creating(folder));
          WaitingRun(v, turns);
          return;
        }
        CreateTurn(v, turns, used, folder);
        var created := turns[used].created;
        v := v.(cancelled := v.cancelled + turns[used].cancels);
        used := used + 1;
        if !created {
          return v.(stage := Creating(folder), status := Stopped), used, true;
        }
      }
      v := v.(log := v.log + [Ensured(v.item, folder)]);
      folder := folder + 1;
    }
    ended := false;
  }

  /**
   The attempts for one file, the first request having been sent. It ends with an outcome, or with `ended` when the run
   is stopped or waits.
   */
  method TransferFile(u: Upload, turns: seq<UploadTurn>, begin: nat)
    returns (v: Upload, outcome: Outcome, used: nat, ended: bool)
    requires u.status == Running && u.item < |u.items| && u.stage.Uploading? && begin <= |turns|
    ensures begin <= used <= |turns| && v.item == u.item && v.items == u.items
    ensures ended ==> UploadRun(u, turns[begin..]) == v
    ensures !ended ==> v.status == Running
    ensures !ended ==> UploadRun(u, turns[begin..]) == UploadRun(UploadItemEnds(v, outcome), turns[used..])
  {
    hide UploadItemEnds, UploadRun, UploadFolder, UploadNext, FirstConflict;
    v, used, outcome := u, begin, WasCancelled;
    ghost var whole := UploadRun(u, turns[begin..]);
    while used < |turns|
      invariant begin <= used <= |turns| && v.item == u.item && v.items == u.items
      invariant v.status == Running && v.stage.Uploading? && whole == UploadRun(v, turns[used..])
    {
      OneTurn(v, turns, used);
      var reply := turns[used].reply;
      v := v.(cancelled := v.cancelled + turns[used].cancels, log := v.log + [Replied(v.item, reply)]);
      used := used + 1;
      if reply == Done { return v, WasDone, used, false; }
      if v.item in v.cancelled || reply == Aborted { return v, WasCancelled, used, false; }
      if reply == Failed {
        v := v.(status := Stopped);
        FinishedUploadStays(v, turns[used..]);
        return v, WasCancelled, used, true;
      }
      if v.forAll == Some(Skip) {
        v := v.(skipped := v.skipped + 1);
        return v, WasSkipped, used, false;
      }
      v := v.(stage := Asking);
      if used == |turns| {
        WaitingRun(v, turns);
        return v, WasCancelled, used, true;
      }
      OneTurn(v, turns, used);
      var decision := turns[used].answer;
      v := v.(cancelled := v.cancelled + turns[used].cancels, log := v.log + [Asked(v.item, decision)]);
      used := used + 1;
      if decision.choice == Cancel {
        v := v.(status := Stopped);
        FinishedUploadStays(v, turns[used..]);
        return v, WasCancelled, used, true;
      }
      if decision.applyAll { v := v.(forAll := Some(decision.choice)); }
      if decision.choice == Skip {
        v := v.(skipped := v.skipped + 1);
        return v, WasSkipped, used, false;
      }
      v := v.(stage := Uploading(decision.choice.conflict), log := v.log + [Sent(v.item, decision.choice.conflict)]);
    }
    WaitingRun(v, turns);
    ended := true;
  }

  /** uploadFiles: the loop over the items. */
  method UploadFiles(items: seq<UploadItem>, turns: seq<UploadTurn>) returns (end: Upload)
    ensures end == UploadRun(UploadStart(items), turns)
  {
    hide UploadRun, UploadStep, FirstConflict;
    end := Upload(items, 0, None, Between, {}, 0, [], Running, []);
    var used := 0;
    ghost var whole := UploadRun(UploadStart(items), turns);
    assert turns[0..] == turns;
    while end.item < |items|
      invariant end.items == items && 0 <= end.item <= |items| && 0 <= used <= |turns|
      invariant end.status == Running && end.stage == Between
      invariant whole == UploadRun(UploadNext(end), turns[used..])
      decreases |items| - end.item
    {
      var outcome := WasCancelled;
      if end.item !in end.cancelled {
        if !items[end.item].validName {
          end := end.(status := Stopped);
          FinishedUploadStays(end, turns[used..]);
          return;
        }
        var stopped;
        end, used, stopped := EnsureFolders(end, turns, used);
        if stopped { return; }
        if items[end.item].directory {
          outcome := WasCreated;
        } else {
          var conflict := FirstConflict(end.forAll);
          var sent := end.(stage := Uploading(conflict), log := end.log + [Sent(end.item, conflict)]);
          var finished;
          end, outcome, used, finished := TransferFile(sent, turns, used);
          if finished { return; }
        }
      }
      end := end.(item := end.item + 1, stage := Between, outcomes := end.outcomes + [outcome]);
    }
    end := end.(status := Complete);
    FinishedUploadStays(end, turns[used..]);
  }

  /** The first `count` folders of an item have been found or created. */
  ghost predicate FoldersReady(log: seq<Entry>, item: nat, count: nat) {
    forall folder: nat :: folder < count ==> Ensured(item, folder) in log
  }

  /** No request goes out before every folder of its item is there. */
  ghost predicate FoldersFirst(items: seq<UploadItem>, log: seq<Entry>) {
    forall k :: 0 <= k < |log| && log[k].Sent? ==>
      log[k].item < |items| && FoldersReady(log[..k], log[k].item, items[log[k].item].folders)
  }

  /** Only files are uploaded or skipped; only directories are created, and then all their folders are there. */
  ghost predicate KindFits(items: seq<UploadItem>, log: seq<Entry>, i: nat, outcome: Outcome) {
    && i < |items|
    && (outcome == WasCreated ==> items[i].directory && FoldersReady(log, i, items[i].folders))
    && (outcome == WasDone || outcome == WasSkipped ==> !items[i].directory)
  }

  ghost predicate KindsFit(items: seq<UploadItem>, log: seq<Entry>, outcomes: seq<Outcome>) {
    forall i :: 0 <= i < |outcomes| ==> KindFits(items, log, i, outcomes[i])
  }

  /** What the log says about folders, kinds and outcomes. */
  ghost predicate HistoryFits(u: Upload) {
    && OutcomesFit(u.log, u.cancelled, u.outcomes) && KindsFit(u.items, u.log, u.outcomes)
        && FoldersFirst(u.items, u.log)
  }

  ghost predicate UploadBookkeeping(u: Upload) {
    && u.item == |u.outcomes| <= |u.items|
    && u.skipped == Count(u.outcomes, WasSkipped)
    && u.forAll == AnswerForAll(u.log)
    && HistoryFits(u)
  }

  /** A file whose folders are all there. */
  ghost predicate ReadyToSend(u: Upload) {
    u.item < |u.items| && !u.items[u.item].directory && FoldersReady(u.log, u.item, u.items[u.item].folders)
  }

  ghost predicate StageFits(u: Upload)
    requires u.item < |u.items|
  {
    match u.stage
    case Between => false
    case Uploading(_) => ReadyToSend(u) && Awaiting(u.log, u.item)
    case Asking => ReadyToSend(u) && Deciding(u.log, u.item)
    case _ =>
      && NothingSent(u.log, u.item) && u.stage.folder < u.items[u.item].folders
      && FoldersReady(u.log, u.item, u.stage.folder)
  }

  ghost predicate UploadFits(u: Upload) {
    && UploadBookkeeping(u) && LogFits(u.log, u.item)
    && (u.status == Running ==> u.item < |u.items| && StageFits(u))
    && (u.status == Complete ==> u.item == |u.items|)
  }

  lemma FoldersStayReady(log: seq<Entry>, entry: Entry, item: nat, count: nat)
    requires FoldersReady(log, item, count)
    ensures FoldersReady(log + [entry], item, count)
    ensures entry == Ensured(item, count) ==> FoldersReady(log + [entry], item, count + 1)
  {
  }

  lemma FoldersStayFirst(items: seq<UploadItem>, log: seq<Entry>, entry: Entry)
    requires FoldersFirst(items, log)
    requires entry.Sent? ==> entry.item < |items| && FoldersReady(log, entry.item, items[entry.item].folders)
    ensures FoldersFirst(items, log + [entry])
  {
    hide FoldersReady;
    var longer := log + [entry];
    forall k | 0 <= k < |longer| && longer[k].Sent?
      ensures longer[k].item < |items| && FoldersReady(longer[..k], longer[k].item, items[longer[k].item].folders)
    {
      assert longer[..k] == if k < |log| then log[..k] else log;
    }
  }

  lemma KindsStayFitting(items: seq<UploadItem>, log: seq<Entry>, entry: Entry, outcomes: seq<Outcome>)
    requires KindsFit(items, log, outcomes)
    ensures KindsFit(items, log + [entry], outcomes)
  {
    forall i | 0 <= i < |outcomes| ensures KindFits(items, log + [entry], i, outcomes[i]) {
      assert KindFits(items, log, i, outcomes[i]);
      if outcomes[i] == WasCreated { FoldersStayReady(log, entry, i, items[i].folders); }
    }
  }

  /** One more entry about the present item. */
  lemma LongerHistoryFits(u: Upload, entry: Entry)
    requires HistoryFits(u) && entry.item == u.item == |u.outcomes|
    requires entry.Sent? ==> ReadyToSend(u)
    ensures HistoryFits(u.(log := u.log + [entry]))
    ensures ReadyToSend(u) ==> ReadyToSend(u.(log := u.log + [entry]))
  {
    hide OutcomesFit, KindsFit, FoldersFirst, FoldersReady;
    LongerLogKeepsOutcomes(u.log, entry, u.cancelled, u.outcomes);
    KindsStayFitting(u.items, u.log, entry, u.outcomes);
    FoldersStayFirst(u.items, u.log, entry);
    if ReadyToSend(u) { FoldersStayReady(u.log, entry, u.item, u.items[u.item].folders); }
  }

  lemma CancellingFits(u: Upload, cancels: set<nat>)
    requires UploadFits(u)
    ensures UploadFits(u.(cancelled := u.cancelled + cancels))
  {
    MoreCancelledKeepsOutcomes(u.log, u.cancelled, cancels, u.outcomes);
    hide OutcomesFit, KindsFit, FoldersFirst, FoldersReady, LogFits, Awaiting, Deciding, NothingSent, Count,
        AnswerForAll;
  }

  lemma FirstRequestFits(u: Upload)
    requires UploadBookkeeping(u) && Orderly(u.log) && NothingSent(u.log, u.item) && u.status == Running
        && ReadyToSend(u)
    ensures UploadFits(UploadRequest(u, FirstConflict(u.forAll)))
  {
    hide Orderly, FirstConflict, HistoryFits, Count, FoldersReady, NothingSent, AnswerForAll;
    NewRequestFits(u.log, u.item);
    LongerHistoryFits(u, Sent(u.item, FirstConflict(u.forAll)));
    var sent := u.(log := u.log + [Sent(u.item, FirstConflict(u.forAll))]);
    SameHistory(sent, UploadRequest(u, FirstConflict(u.forAll)));
  }

  /** Folders and outcomes do not depend on the stage, the counters and the answer for all. */
  lemma SameHistory(u: Upload, v: Upload)
    requires v.items == u.items && v.item == u.item && v.log == u.log && v.cancelled == u.cancelled
        && v.outcomes == u.outcomes
    ensures HistoryFits(v) == HistoryFits(u) && ReadyToSend(v) == ReadyToSend(u)
  {
  }

  lemma EnsuredFolderFits(u: Upload, folder: nat)
    requires UploadBookkeeping(u) && Orderly(u.log) && NothingSent(u.log, u.item) && FoldersReady(u.log, u.item, folder)
    ensures UploadBookkeeping(FolderEnsured(u, folder))
    ensures Orderly(FolderEnsured(u, folder).log) && NothingSent(FolderEnsured(u, folder).log, u.item)
    ensures FoldersReady(FolderEnsured(u, folder).log, u.item, folder + 1)
  {
    hide Orderly, HistoryFits, Count, FoldersReady, AnswerForAll;
    var entry := Ensured(u.item, folder);
    AnswerForAllOther(u.log, entry);
    OrderlyAppend(u.log, entry);
    FoldersStayReady(u.log, entry, u.item, folder);
    LongerHistoryFits(u, entry);
  }

  lemma {:induction false} FolderFits(u: Upload, folder: nat)
    requires UploadBookkeeping(u) && Orderly(u.log) && NothingSent(u.log, u.item) && u.item < |u.items|
        && u.status == Running
    requires folder <= u.items[u.item].folders && FoldersReady(u.log, u.item, folder)
    ensures UploadFits(UploadFolder(u, folder))
    decreases |u.items| - u.item, 0
  {
    hide Orderly, HistoryFits, FoldersReady, Count, AnswerForAll;
    if folder >= u.items[u.item].folders {
      if u.items[u.item].directory {
        ItemEndFits(u, WasCreated);
      } else {
        FirstRequestFits(u);
      }
    } else {
      SameHistory(u, UploadFolder(u, folder));
    }
  }

  /** An outcome that agrees with the log and the kind of the item. */
  ghost predicate MayEnd(u: Upload, outcome: Outcome) {
    OutcomeFits(u.log, u.cancelled, u.item, outcome) && KindFits(u.items, u.log, u.item, outcome)
  }

  function Counted(u: Upload, outcome: Outcome): Upload {
    if outcome == WasSkipped then u.(skipped := u.skipped + 1) else u
  }

  lemma {:induction false} ItemEndFits(u: Upload, outcome: Outcome)
    requires UploadBookkeeping(u) && LogFits(u.log, u.item) && u.item < |u.items| && u.status == Running
        && MayEnd(u, outcome)
    ensures UploadFits(UploadItemEnds(Counted(u, outcome), outcome))
    decreases |u.items| - u.item - 1, 2
  {
    hide Orderly, OutcomesFit, OutcomeFits, KindFits, FoldersFirst, AnswerForAll;
    OneMoreOutcome(u.log, u.cancelled, u.outcomes, outcome);
    NextFits(Counted(u, outcome).(item := u.item + 1, stage := Between, outcomes := u.outcomes + [outcome]));
  }

  lemma {:induction false} NextFits(u: Upload)
    requires UploadBookkeeping(u) && Orderly(u.log) && NothingSent(u.log, u.item) && u.status == Running
    ensures UploadFits(UploadNext(u))
    decreases |u.items| - u.item, 1
  {
    hide Orderly, OutcomesFit, KindsFit, FoldersFirst, Count, AnswerForAll;
    if u.item < |u.items| {
      if u.item in u.cancelled {
        ItemEndFits(u, WasCancelled);
      } else if u.items[u.item].validName {
        FolderFits(u, 0);
      }
    }
  }

  lemma AfterReplyFits(u: Upload, reply: Reply)
    requires UploadFits(u) && u.status == Running && u.stage.Uploading?
    ensures UploadFits(AfterReply(u.(log := u.log + [Replied(u.item, reply)]), reply))
  {
    hide Orderly, HistoryFits, Count, AnswerForAll, FoldersReady, UploadItemEnds;
    var v := u.(log := u.log + [Replied(u.item, reply)]);
    ReplyFits(u.log, u.item, reply);
    LongerHistoryFits(u, Replied(u.item, reply));
    if reply == Done {
      ItemEndFits(v, WasDone);
    } else if u.item in u.cancelled || reply == Aborted {
      ItemEndFits(v, WasCancelled);
    } else if reply == Exists {
      if u.forAll == Some(Skip) {
        AnswerForAllWasGiven(v.log);
        assert SkipChosen(v.log, v.item);
        ItemEndFits(v, WasSkipped);
      } else {
        SameHistory(v, v.(stage := Asking));
      }
    } else {
      SameHistory(v, v.(status := Stopped));
    }
  }

  lemma AfterAnswerFits(u: Upload, answer: Decision)
    requires UploadFits(u) && u.status == Running && u.stage.Asking?
    ensures UploadFits(AfterAnswer(u, answer))
  {
    hide Orderly, HistoryFits, Count, AnswerForAll, FoldersReady, UploadItemEnds;
    var longer := u.(log := u.log + [Asked(u.item, answer)]);
    var asked := longer.(
      forAll := if answer.applyAll && answer.choice != Cancel then Some(answer.choice) else u.forAll);
    AnswerFits(u.log, u.item, answer);
    LongerHistoryFits(u, Asked(u.item, answer));
    SameHistory(longer, asked);
    match answer.choice
    case Cancel => SameHistory(asked, asked.(status := Stopped));
    case Skip => ItemEndFits(asked, WasSkipped);
    case Use(conflict) =>
      RetryFits(u.log, u.item, answer);
      LongerHistoryFits(asked, Sent(u.item, conflict));
      SameHistory(asked.(log := asked.log + [Sent(u.item, conflict)]), UploadRequest(asked, conflict));
  }

  lemma UploadStepFits(u: Upload, turn: UploadTurn)
    requires UploadFits(u)
    ensures UploadFits(UploadStep(u, turn))
  {
    hide Orderly, HistoryFits, Count, AnswerForAll, FoldersReady, UploadFolder, AfterReply, AfterAnswer;
    if u.status == Running {
      var v := u.(cancelled := u.cancelled + turn.cancels);
      CancellingFits(u, turn.cancels);
      if u.stage.Uploading? {
        AfterReplyFits(v, turn.reply);
      } else if u.stage.Asking? {
        AfterAnswerFits(v, turn.answer);
      } else {
        EnsuredFolderFits(v, u.stage.folder);
        FolderFits(FolderEnsured(v, u.stage.folder), u.stage.folder + 1);
        SameHistory(v, v.(stage := Creating(u.stage.folder)));
        SameHistory(v, v.(status := Stopped));
      }
    }
  }

  lemma {:induction false} UploadRunFits(u: Upload, turns: seq<UploadTurn>)
    requires UploadFits(u)
    ensures UploadFits(UploadRun(u, turns))
    decreases |turns|
  {
    hide UploadFits, UploadStep;
    if turns != [] {
      UploadStepFits(u, turns[0]);
      UploadRunFits(UploadStep(u, turns[0]), turns[1..]);
    }
  }

  /**
   For every sequence of server replies, user answers and cancellations: requests, replies and answers follow the
   protocol, every upload request carrying exactly the conflict mode that the user wanted for it, and going out only
   after every folder of its item was found or created; every item passed so far has exactly one outcome, which agrees
   with its kind, the replies, the answers and the cancellations; the skip count is exact; and a run that is not stopped
   ends with an outcome for every item.
   */
  lemma UploadHonoursTheUser(items: seq<UploadItem>, turns: seq<UploadTurn>)
    ensures var end := UploadRun(UploadStart(items), turns);
            && Orderly(end.log) && FoldersFirst(items, end.log)
            && OutcomesFit(end.log, end.cancelled, end.outcomes) && KindsFit(items, end.log, end.outcomes)
            && |end.outcomes| == end.item <= |items|
            && end.skipped == Count(end.outcomes, WasSkipped)
            && (end.status == Complete ==>
                  |items| == |end.outcomes|
                  == Count(end.outcomes, WasDone) + Count(end.outcomes, WasCreated) + end.skipped
                     + Count(end.outcomes, WasCancelled))
  {
    hide Orderly, UploadRun, UploadNext, AnswerForAll, FoldersReady;
    NothingLoggedYet();
    NextFits(Upload(items, 0, None, Between, {}, 0, [], Running, []));
    UploadRunFits(UploadStart(items), turns);
    CountsAddUp(UploadRun(UploadStart(items), turns).outcomes);
  }

  /** The step sends a request for the present item. */
  predicate Sends(u: Upload, turn: UploadTurn) {
    var v := UploadStep(u, turn);
    v.item == u.item && |v.log| > |u.log| && v.log[|v.log| - 1].Sent?
  }

  /**
   When a turn sends a cancelled item: while its folders are looked up or created, exactly when the last of them is
   there. The case of an open dialog is more than the page allows, where nothing can be cancelled behind the dialog.
   */
  lemma CancelledItemIsStillSent(u: Upload, turn: UploadTurn)
    requires u.status == Running && u.item < |u.items| && u.item in u.cancelled + turn.cancels
    ensures Sends(u, turn) <==>
            match u.stage
            case Statting(folder) =>
              turn.stat == Directory && folder + 1 >= u.items[u.item].folders && !u.items[u.item].directory
            case Creating(folder) => turn.created && folder + 1 >= u.items[u.item].folders && !u.items[u.item].directory
            case Asking => turn.answer.choice.Use?
            case _ => false
  {
  }

  /**
   Going on to the head of the loop sends at most the first request of the item it stops at, which is not cancelled.
   */
  ghost predicate Advances(u: Upload, v: Upload, from: nat) {
    && v.cancelled == u.cancelled && v.forAll == u.forAll && from <= v.item
    && (v.log == u.log || v.log == u.log + [Sent(v.item, FirstConflict(u.forAll))])
    && (v.log != u.log || (u.status == Running && v.status == Running) ==> v.item < |u.items|)
    && (v.log != u.log ==> v.stage.Uploading? && !u.items[v.item].directory)
    && (from < v.item && (v.log != u.log || (u.status == Running && v.status == Running)) ==> v.item !in u.cancelled)
    && (u.status == Running && v.status == Running ==> v.stage.Statting? || v.stage.Uploading?)
  }

  lemma {:induction false} FolderAdvances(u: Upload, folder: nat)
    requires u.item < |u.items|
    ensures Advances(u, UploadFolder(u, folder), u.item)
    decreases |u.items| - u.item, 0
  {
    if folder >= u.items[u.item].folders && u.items[u.item].directory { ItemEndAdvances(u, WasCreated); }
  }

  lemma {:induction false} ItemEndAdvances(u: Upload, outcome: Outcome)
    requires u.item < |u.items|
    ensures Advances(u, UploadItemEnds(u, outcome), u.item + 1)
    ensures var v := UploadItemEnds(u, outcome);
            v.log != u.log || (u.status == Running && v.status == Running) ==> v.item !in u.cancelled
    decreases |u.items| - u.item - 1, 2
  {
    NextAdvances(u.(item := u.item + 1, stage := Between, outcomes := u.outcomes + [outcome]));
  }

  lemma {:induction false} NextAdvances(u: Upload)
    requires u.item <= |u.items|
    ensures Advances(u, UploadNext(u), u.item)
    ensures var v := UploadNext(u);
            v.log != u.log || (u.status == Running && v.status == Running) ==> v.item !in u.cancelled
    decreases |u.items| - u.item, 1
  {
    if u.item < |u.items| {
      if u.item in u.cancelled {
        ItemEndAdvances(u, WasCancelled);
      } else if u.items[u.item].validName {
        FolderAdvances(u, 0);
      }
    }
  }

  /** Some later entry of the run is a request for the item. */
  ghost predicate SendsLater(u: Upload, turns: seq<UploadTurn>, item: nat) {
    var log := UploadRun(u, turns).log;
    exists k :: |u.log| <= k < |log| && log[k].Sent? && log[k].item == item
  }

  /** The run will not send the item: it is past, or cancelled before it begins or while its request is under way. */
  predicate Quiet(u: Upload, item: nat) {
    || u.status != Running || item < u.item
    || (item in u.cancelled && (u.item < item || u.stage.Uploading?))
  }

  /** Nothing of what a step adds is a request for the item. */
  ghost predicate AddsNoRequest(u: Upload, v: Upload, item: nat) {
    && |u.log| <= |v.log| && v.log[..|u.log|] == u.log
    && forall k :: |u.log| <= k < |v.log| && v.log[k].Sent? ==> v.log[k].item != item
  }

  /** A step before the end of the present item, or its end with an outcome. */
  lemma EndingIsQuiet(u: Upload, v: Upload, outcome: Outcome, item: nat)
    requires v.item < |v.items| && v.item == u.item && v.status == Running && AddsNoRequest(u, v, item)
    requires item <= u.item || item in v.cancelled
    ensures Quiet(UploadItemEnds(v, outcome), item) && AddsNoRequest(u, UploadItemEnds(v, outcome), item)
  {
    hide UploadItemEnds, FirstConflict;
    ItemEndAdvances(v, outcome);
  }

  lemma FolderIsQuiet(u: Upload, v: Upload, folder: nat, item: nat)
    requires v.item < |v.items| && v.item == u.item && v.status == Running && AddsNoRequest(u, v, item)
    requires item < u.item || (u.item < item && item in v.cancelled)
    ensures Quiet(UploadFolder(v, folder), item) && AddsNoRequest(u, UploadFolder(v, folder), item)
  {
    hide UploadFolder, FirstConflict;
    FolderAdvances(v, folder);
  }

  lemma StepIsQuiet(u: Upload, turn: UploadTurn, item: nat)
    requires Quiet(u, item)
    ensures Quiet(UploadStep(u, turn), item) && AddsNoRequest(u, UploadStep(u, turn), item)
  {
    hide UploadFolder, UploadItemEnds, FirstConflict;
    var v := u.(cancelled := u.cancelled + turn.cancels);
    if u.status == Running && u.item < |u.items| && !u.stage.Between? {
      if u.stage.Uploading? {
        var replied := v.(log := v.log + [Replied(v.item, turn.reply)]);
        EndingIsQuiet(u, replied, WasDone, item);
        EndingIsQuiet(u, replied, WasCancelled, item);
        EndingIsQuiet(u, replied.(skipped := u.skipped + 1), WasSkipped, item);
      } else if u.stage.Asking? {
        var asked := v.(log := v.log + [Asked(v.item, turn.answer)],
                        forAll := if turn.answer.applyAll && turn.answer.choice != Cancel
                                  then Some(turn.answer.choice) else v.forAll);
        EndingIsQuiet(u, asked.(skipped := u.skipped + 1), WasSkipped, item);
      } else {
        FolderIsQuiet(u, FolderEnsured(v, u.stage.folder), u.stage.folder + 1, item);
      }
    }
  }

  /** An item cancelled before it begins, or while its request is under way, is never sent afterwards. */
  lemma {:induction false} CancelledItemIsNeverSent(u: Upload, turns: seq<UploadTurn>, item: nat)
    requires Quiet(u, item)
    ensures AddsNoRequest(u, UploadRun(u, turns), item) && !SendsLater(u, turns, item)
    decreases |turns|
  {
    hide Quiet, UploadStep;
    if turns != [] {
      StepIsQuiet(u, turns[0], item);
      CancelledItemIsNeverSent(UploadStep(u, turns[0]), turns[1..], item);
      RequestsAddUp(u, UploadStep(u, turns[0]), UploadRun(u, turns), item);
    }
  }

  lemma RequestsAddUp(u: Upload, v: Upload, w: Upload, item: nat)
    requires AddsNoRequest(u, v, item) && AddsNoRequest(v, w, item)
    ensures AddsNoRequest(u, w, item)
  {
    assert forall k :: 0 <= k < |v.log| ==> w.log[k] == w.log[..|v.log|][k];
    assert w.log[..|u.log|] == v.log[..|u.log|];
  }

  lemma StepExtendsLog(u: Upload, turn: UploadTurn)
    ensures u.log <= UploadStep(u, turn).log
  {
    hide UploadFolder, UploadItemEnds, FirstConflict;
    var v := u.(cancelled := u.cancelled + turn.cancels);
    if u.status == Running && u.item < |u.items| {
      if u.stage.Statting? || u.stage.Creating? {
        FolderAdvances(FolderEnsured(v, u.stage.folder), u.stage.folder + 1);
      } else if u.stage.Uploading? {
        var replied := v.(log := v.log + [Replied(v.item, turn.reply)]);
        ItemEndAdvances(replied, WasDone);
        ItemEndAdvances(replied, WasCancelled);
        ItemEndAdvances(replied.(skipped := u.skipped + 1), WasSkipped);
      } else if u.stage.Asking? {
        var asked := v.(log := v.log + [Asked(v.item, turn.answer)],
                        forAll := if turn.answer.applyAll && turn.answer.choice != Cancel
                                  then Some(turn.answer.choice) else v.forAll);
        ItemEndAdvances(asked.(skipped := u.skipped + 1), WasSkipped);
      }
    }
  }

  lemma {:induction false} LogOnlyGrows(u: Upload, turns: seq<UploadTurn>)
    ensures u.log <= UploadRun(u, turns).log
    decreases |turns|
  {
    hide UploadStep;
    if turns != [] {
      StepExtendsLog(u, turns[0]);
      LogOnlyGrows(UploadStep(u, turns[0]), turns[1..]);
    }
  }

  /** The turns in which the remaining folders of an item are looked up, and created where missing, all end well. */
  predicate FoldersTurnOut(stage: Stage, folders: nat, turns: seq<UploadTurn>)
    requires stage.Statting? || stage.Creating?
    decreases |turns|
  {
    && turns != []
    && if stage.Statting? && turns[0].stat == Missing then FoldersTurnOut(Creating(stage.folder), folders, turns[1..])
       else
         && (if stage.Statting? then turns[0].stat == Directory else turns[0].created)
         && (folders <= stage.folder + 1 || FoldersTurnOut(Statting(stage.folder + 1), folders, turns[1..]))
  }

  lemma QuietWhenStopped(u: Upload, item: nat)
    ensures u.status == Stopped ==> Quiet(u, item)
  {
  }

  /** What a turn among the folders of a cancelled item adds, and where it leads. */
  lemma FolderTurn(u: Upload, turn: UploadTurn)
    requires u.status == Running && u.item < |u.items| && u.item in u.cancelled
    requires u.stage.Statting? || u.stage.Creating?
    ensures var v := UploadStep(u, turn);
            var found := if u.stage.Statting? then turn.stat == Directory else turn.created;
            var last := u.stage.folder + 1 >= u.items[u.item].folders;
            if u.stage.Statting? && turn.stat == Missing then
              v.status == Running && v.item == u.item && v.items == u.items && v.log == u.log
              && v.stage == Creating(u.stage.folder) && v.item in v.cancelled
            else if !found then v.status == Stopped && v.log == u.log
            else if !last then
              && v.status == Running && v.item == u.item && v.items == u.items
              && v.log == u.log + [Ensured(u.item, u.stage.folder)]
              && v.stage == Statting(u.stage.folder + 1) && v.item in v.cancelled
            else
              && Quiet(v, u.item)
              && (if u.items[u.item].directory then AddsNoRequest(u, v, u.item)
                  else |v.log| == |u.log| + 2 && v.log[|u.log| + 1] == Sent(u.item, FirstConflict(u.forAll)))
  {
    hide UploadItemEnds, FirstConflict;
    var added := u.(cancelled := u.cancelled + turn.cancels);
    var ensured := FolderEnsured(added, u.stage.folder);
    if u.items[u.item].directory { EndingIsQuiet(u, ensured, WasCreated, u.item); }
  }

  /**
   An item cancelled while its folders are looked up or created is sent all the same, if and only if it is a file and
   all its remaining folders turn out to be there.
   */
  lemma {:induction false} CancelledAmongFoldersIsSentExactlyWhen(u: Upload, turns: seq<UploadTurn>)
    requires u.status == Running && u.item < |u.items| && u.item in u.cancelled
    requires u.stage.Statting? || u.stage.Creating?
    ensures SendsLater(u, turns, u.item)
            <==> !u.items[u.item].directory && FoldersTurnOut(u.stage, u.items[u.item].folders, turns)
    decreases |turns|
  {
    if turns != [] {
      var v, item := UploadStep(u, turns[0]), u.item;
      FolderTurn(u, turns[0]);
      LogOnlyGrows(v, turns[1..]);
      var missing := u.stage.Statting? && turns[0].stat == Missing;
      var found := if u.stage.Statting? then turns[0].stat == Directory else turns[0].created;
      hide UploadStep, Quiet;
      if missing || (found && u.stage.folder + 1 < u.items[item].folders) {
        CancelledAmongFoldersIsSentExactlyWhen(v, turns[1..]);
      } else {
        QuietWhenStopped(v, item);
        CancelledItemIsNeverSent(v, turns[1..], item);
        if found && !u.items[item].directory { assert UploadRun(u, turns).log[|u.log| + 1] == v.log[|u.log| + 1]; }
      }
    }
  }

  /** A concrete run: a file is cancelled while its one folder is looked up, and sent when the folder is found. */
  lemma CancelledUploadIsSent()
    ensures var turn := UploadTurn({0}, Directory, false, Failed, Decision(Cancel, false));
            var end := UploadRun(UploadStart([UploadItem(false, true, 1)]), [turn]);
            end.cancelled == {0} && end.log == [Ensured(0, 0), Sent(0, Reject)]
  {
  }

  /** The replies, answers and folders of a log, without the requests: what the environment told the run. */
  function Heard(log: seq<Entry>): seq<Entry> {
    if log == [] then []
    else
      var last := log[|log| - 1];
      Heard(log[..|log| - 1]) + if last.Sent? then [] else [last]
  }

  lemma HeardAppend(log: seq<Entry>, entry: Entry)
    ensures Heard(log + [entry]) == Heard(log) + if entry.Sent? then [] else [entry]
  {
    assert (log + [entry])[..|log|] == log;
  }

  lemma HeardWithRequest(log: seq<Entry>, entry: Entry, longer: seq<Entry>)
    requires entry.Sent? && (longer == log || longer == log + [entry])
    ensures Heard(longer) == Heard(log)
  {
    HeardAppend(log, entry);
    assert Heard(log) + [] == Heard(log);
  }

  /** A paste is given up when a request fails otherwise than by an existing destination, or the user cancels. */
  predicate GivesUp(entry: Entry) {
    (entry.Replied? && entry.reply != Done && entry.reply != Exists)
    || (entry.Asked? && entry.decision.choice == Cancel)
  }

  /** What a turn tells a paste. */
  function PasteHears(p: Paste, turn: PasteTurn): Entry {
    if p.asking then Asked(p.item, turn.answer) else Replied(p.item, turn.reply)
  }

  lemma PasteNextHears(p: Paste)
    requires p.status == Running && p.item <= p.total
    ensures Heard(PasteNext(p).log) == Heard(p.log)
    ensures PasteNext(p).status == if p.item < p.total then Running else Complete
    ensures PasteNext(p).item == p.item && PasteNext(p).total == p.total
  {
    HeardWithRequest(p.log, Sent(p.item, FirstConflict(p.forAll)), PasteNext(p).log);
    hide Heard, FirstConflict;
  }

  lemma PasteStepHears(p: Paste, turn: PasteTurn)
    requires p.status == Running && p.item < p.total
    ensures var v := PasteStep(p, turn);
            && Heard(v.log) == Heard(p.log) + [PasteHears(p, turn)]
            && (v.status == Stopped <==> GivesUp(PasteHears(p, turn)))
            && (v.status == Complete <==> v.item == v.total) && v.item <= v.total == p.total
  {
    hide Heard, PasteNext;
    var heard := p.log + [PasteHears(p, turn)];
    HeardAppend(p.log, PasteHears(p, turn));
    if turn.answer.choice.Use? {
      HeardWithRequest(heard, Sent(p.item, turn.answer.choice.conflict),
                       heard + [Sent(p.item, turn.answer.choice.conflict)]);
    }
    forall next: Paste | next.status == Running && next.item <= next.total && next.log == heard
      ensures Heard(PasteNext(next).log) == Heard(heard)
      ensures PasteNext(next).status == if next.item < next.total then Running else Complete
      ensures PasteNext(next).item == next.item && PasteNext(next).total == next.total
    {
      PasteNextHears(next);
    }
  }

  /** The entries that the turns of a run amount to, one for each until the run ends. */
  function PasteHearsIn(p: Paste, turns: seq<PasteTurn>): seq<Entry>
    decreases |turns|
  {
    if turns == [] || p.status != Running then []
    else [PasteHears(p, turns[0])] + PasteHearsIn(PasteStep(p, turns[0]), turns[1..])
  }

  /** Each entry is the reply or the answer of the turn with its number. */
  ghost predicate AreOf(heard: seq<Entry>, turns: seq<PasteTurn>) {
    |heard| <= |turns| && forall k :: 0 <= k < |heard| ==>
      heard[k] == Replied(heard[k].item, turns[k].reply) || heard[k] == Asked(heard[k].item, turns[k].answer)
  }

  /** Where a paste stands after what it was told last. */
  ghost predicate EndsBy(end: Paste, heard: seq<Entry>) {
    && (end.status == Stopped <==> heard != [] && GivesUp(heard[|heard| - 1]))
    && (end.status == Complete <==> end.item == end.total) && end.item <= end.total
  }

  lemma {:induction false} PasteRunHears(p: Paste, turns: seq<PasteTurn>, heard: seq<Entry>)
    requires EndsBy(p, heard)
    ensures var end := PasteRun(p, turns);
            var more := PasteHearsIn(p, turns);
            && Heard(end.log) == Heard(p.log) + more && AreOf(more, turns) && EndsBy(end, heard + more)
            && (end.status == Running ==> |more| == |turns|)
    decreases |turns|
  {
    hide PasteStep, Heard, PasteHears, EndsBy, AreOf;
    if turns == [] || p.status != Running {
      FinishedOrWaiting(p, turns);
      NothingIsOf(turns);
      assert Heard(p.log) + [] == Heard(p.log) && heard + [] == heard;
    } else {
      var told, next := PasteHears(p, turns[0]), PasteStep(p, turns[0]);
      var rest := PasteHearsIn(next, turns[1..]);
      OneMoreHeard(p, turns[0], heard);
      PasteRunHears(next, turns[1..], heard + [told]);
      ToldAndRest(p, turns, rest);
      assert heard + [told] + rest == heard + ([told] + rest);
      assert Heard(p.log) + [told] + rest == Heard(p.log) + ([told] + rest);
    }
  }

  lemma NothingIsOf(turns: seq<PasteTurn>)
    ensures AreOf([], turns)
  {
  }

  lemma ToldAndRest(p: Paste, turns: seq<PasteTurn>, rest: seq<Entry>)
    requires turns != [] && AreOf(rest, turns[1..])
    ensures AreOf([PasteHears(p, turns[0])] + rest, turns)
  {
  }

  lemma OneMoreHeard(p: Paste, turn: PasteTurn, heard: seq<Entry>)
    requires p.status == Running && EndsBy(p, heard)
    ensures Heard(PasteStep(p, turn).log) == Heard(p.log) + [PasteHears(p, turn)]
    ensures EndsBy(PasteStep(p, turn), heard + [PasteHears(p, turn)])
  {
    hide PasteStep, Heard, PasteHears, GivesUp;
    PasteStepHears(p, turn);
  }

  lemma FinishedOrWaiting(p: Paste, turns: seq<PasteTurn>)
    requires turns == [] || p.status != Running
    ensures PasteRun(p, turns) == p
  {
    if turns != [] { FinishedPasteStays(p, turns); }
  }

  /**
   A paste goes on: it takes every turn, in order, as the reply or the answer it waits for, until it ends. It stops
   exactly when a request fails or the user cancels, and is complete exactly when it has passed every source; so a paste
   that neither fails nor is cancelled comes to its end after as many turns as it has replies and answers.
   */
  lemma EveryPasteTurnIsHeard(total: nat, turns: seq<PasteTurn>)
    ensures var end := PasteRun(PasteStart(total), turns);
            var heard := Heard(end.log);
            && AreOf(heard, turns) && (end.status == Running ==> |heard| == |turns|)
            && (end.status == Stopped <==> heard != [] && GivesUp(heard[|heard| - 1]))
            && (end.status == Complete <==> end.item == total)
  {
    hide PasteRun, GivesUp;
    var begin := Paste(total, 0, None, Reject, false, 0, [], Running, []);
    PasteNextHears(begin);
    assert Heard(PasteStart(total).log) == [];
    PasteRunHears(PasteStart(total), turns, []);
    hide Heard;
    var more := PasteHearsIn(PasteStart(total), turns);
    assert [] + more == more;
    PasteKeepsItsTotal(total, turns);
  }

  lemma PasteKeepsItsTotal(total: nat, turns: seq<PasteTurn>)
    ensures PasteRun(PasteStart(total), turns).total == total
  {
    hide PasteRun;
    NothingLoggedYet();
    PasteNextFits(Paste(total, 0, None, Reject, false, 0, [], Running, []));
    PasteRunFits(PasteStart(total), turns);
  }

  /** What a turn tells a running upload, whichever answer it waits for. */
  function UploadHears(u: Upload, turn: UploadTurn): seq<Entry> {
    match u.stage
    case Between => []
    case Statting(folder) => if turn.stat == Directory then [Ensured(u.item, folder)] else []
    case Creating(folder) => if turn.created then [Ensured(u.item, folder)] else []
    case Uploading(_) => [Replied(u.item, turn.reply)]
    case Asking => [Asked(u.item, turn.answer)]
  }

  /** The turn makes a running upload stop: a lookup, a creation or a request fails, or the user cancels. */
  predicate FailsAt(u: Upload, turn: UploadTurn) {
    match u.stage
    case Between => false
    case Statting(_) => turn.stat == OtherType || turn.stat == StatFailed
    case Creating(_) => !turn.created
    case Uploading(_) => turn.reply == Failed && u.item !in u.cancelled + turn.cancels
    case Asking => turn.answer.choice == Cancel
  }

  /** The upload has come to an uncancelled item with an invalid name. */
  predicate AtInvalidName(u: Upload) {
    u.item < |u.items| && u.item !in u.cancelled && !u.items[u.item].validName
  }

  predicate InProgress(u: Upload) {
    u.status == Running && u.item < |u.items| && u.items[u.item].validName && !u.stage.Between?
  }

  /** Going on along the items tells nothing, and ends in an item in progress, at an invalid name, or at the end. */
  ghost predicate GoesOnTo(u: Upload, v: Upload) {
    && Heard(v.log) == Heard(u.log) && v.cancelled == u.cancelled
    && (v.status == Running ==> InProgress(v))
    && (v.status == Stopped ==> AtInvalidName(v))
    && (v.status == Complete ==> v.item == |v.items|)
  }

  lemma RequestGoesOn(u: Upload, conflict: Conflict)
    requires u.status == Running && u.item < |u.items| && u.items[u.item].validName
    ensures GoesOnTo(u, UploadRequest(u, conflict))
  {
    HeardAppend(u.log, Sent(u.item, conflict));
    hide Heard;
  }

  lemma {:induction false} FolderGoesOn(u: Upload, folder: nat)
    requires u.status == Running && u.item < |u.items| && u.items[u.item].validName
    ensures GoesOnTo(u, UploadFolder(u, folder))
    decreases |u.items| - u.item, 0
  {
    hide Heard, FirstConflict;
    if folder >= u.items[u.item].folders {
      if u.items[u.item].directory { ItemEndGoesOn(u, WasCreated); } else {
        RequestGoesOn(u, FirstConflict(u.forAll));
      }
    }
  }

  lemma {:induction false} ItemEndGoesOn(u: Upload, outcome: Outcome)
    requires u.status == Running && u.item < |u.items|
    ensures GoesOnTo(u, UploadItemEnds(u, outcome))
    decreases |u.items| - u.item - 1, 2
  {
    hide Heard;
    NextGoesOn(u.(item := u.item + 1, stage := Between, outcomes := u.outcomes + [outcome]));
  }

  lemma {:induction false} NextGoesOn(u: Upload)
    requires u.status == Running && u.item <= |u.items|
    ensures GoesOnTo(u, UploadNext(u))
    decreases |u.items| - u.item, 1
  {
    hide Heard;
    if u.item < |u.items| {
      if u.item in u.cancelled {
        ItemEndGoesOn(u, WasCancelled);
      } else if u.items[u.item].validName {
        FolderGoesOn(u, 0);
      }
    }
  }

  /** How a running upload takes a turn. */
  ghost predicate TakesTurn(u: Upload, turn: UploadTurn, v: Upload) {
    && Heard(v.log) == Heard(u.log) + UploadHears(u, turn) && v.cancelled == u.cancelled + turn.cancels
    && (v.status == Running ==> InProgress(v))
    && (v.status == Stopped <==> FailsAt(u, turn) || AtInvalidName(v))
    && (v.status == Complete ==> v.item == |v.items|)
  }

  lemma FolderTurnIsTaken(u: Upload, turn: UploadTurn)
    requires InProgress(u) && (u.stage.Statting? || u.stage.Creating?)
    ensures TakesTurn(u, turn, UploadStep(u, turn))
    ensures u.stage.Statting? && turn.stat == Missing ==>
              UploadStep(u, turn) == u.(cancelled := u.cancelled + turn.cancels, stage := Creating(u.stage.folder))
  {
    hide Heard, UploadFolder;
    var v := u.(cancelled := u.cancelled + turn.cancels);
    assert Heard(u.log) + [] == Heard(u.log);
    HeardAppend(u.log, Ensured(u.item, u.stage.folder));
    FolderGoesOn(FolderEnsured(v, u.stage.folder), u.stage.folder + 1);
  }

  lemma ReplyTurnIsTaken(u: Upload, turn: UploadTurn)
    requires InProgress(u) && u.stage.Uploading?
    ensures TakesTurn(u, turn, UploadStep(u, turn))
  {
    hide Heard, UploadItemEnds;
    var v := u.(cancelled := u.cancelled + turn.cancels, log := u.log + [Replied(u.item, turn.reply)]);
    HeardAppend(u.log, Replied(u.item, turn.reply));
    ItemEndGoesOn(v, WasDone);
    ItemEndGoesOn(v, WasCancelled);
    ItemEndGoesOn(v.(skipped := u.skipped + 1), WasSkipped);
  }

  lemma AnswerTurnIsTaken(u: Upload, turn: UploadTurn)
    requires InProgress(u) && u.stage.Asking?
    ensures TakesTurn(u, turn, UploadStep(u, turn))
  {
    hide Heard, UploadItemEnds, UploadRequest;
    var answer := turn.answer;
    HeardAppend(u.log, Asked(u.item, answer));
    var asked := u.(cancelled := u.cancelled + turn.cancels, log := u.log + [Asked(u.item, answer)],
                    forAll := if answer.applyAll && answer.choice != Cancel then Some(answer.choice) else u.forAll);
    ItemEndGoesOn(asked.(skipped := u.skipped + 1), WasSkipped);
    if answer.choice.Use? { RequestGoesOn(asked, answer.choice.conflict); }
  }

  lemma UploadTurnIsTaken(u: Upload, turn: UploadTurn)
    requires InProgress(u)
    ensures TakesTurn(u, turn, UploadStep(u, turn))
  {
    hide TakesTurn, UploadStep;
    match u.stage
    case Uploading(_) => ReplyTurnIsTaken(u, turn);
    case Asking => AnswerTurnIsTaken(u, turn);
    case _ => FolderTurnIsTaken(u, turn);
  }

  /** What the turns of a run tell it until it ends, whom they cancel, and whether one of them makes it stop. */
  function UploadHearsIn(u: Upload, turns: seq<UploadTurn>): seq<Entry>
    decreases |turns|
  {
    if turns == [] || u.status != Running then []
    else UploadHears(u, turns[0]) + UploadHearsIn(UploadStep(u, turns[0]), turns[1..])
  }

  function CancelledIn(u: Upload, turns: seq<UploadTurn>): set<nat>
    decreases |turns|
  {
    if turns == [] || u.status != Running then {}
    else turns[0].cancels + CancelledIn(UploadStep(u, turns[0]), turns[1..])
  }

  predicate RefusedIn(u: Upload, turns: seq<UploadTurn>)
    decreases |turns|
  {
    turns != [] && u.status == Running
    && (FailsAt(u, turns[0]) || RefusedIn(UploadStep(u, turns[0]), turns[1..]))
  }

  lemma {:induction false} UploadRunHears(u: Upload, turns: seq<UploadTurn>)
    requires u.status == Running ==> InProgress(u)
    requires u.status == Complete ==> u.item == |u.items|
    ensures var end := UploadRun(u, turns);
            && Heard(end.log) == Heard(u.log) + UploadHearsIn(u, turns)
            && end.cancelled == u.cancelled + CancelledIn(u, turns)
            && (u.status == Running ==> (end.status == Stopped <==> RefusedIn(u, turns) || AtInvalidName(end)))
            && (end.status == Running ==> InProgress(end))
            && (end.status == Complete ==> end.item == |u.items|)
    decreases |turns|
  {
    hide Heard, UploadStep, UploadHears, FailsAt;
    if turns == [] || u.status != Running {
      if turns != [] { FinishedUploadStays(u, turns); }
      assert Heard(u.log) + [] == Heard(u.log);
    } else {
      UploadTurnIsTaken(u, turns[0]);
      var next := UploadStep(u, turns[0]);
      UploadRunHears(next, turns[1..]);
      if next.status != Running { FinishedUploadStays(next, turns[1..]); }
      var told, rest := UploadHears(u, turns[0]), UploadHearsIn(next, turns[1..]);
      assert Heard(u.log) + told + rest == Heard(u.log) + (told + rest);
    }
  }

  /**
   An upload on its own goes on, too: it takes every turn, in order, as the answer it waits for, until it ends. It stops
   exactly when a lookup, a creation or an uncancelled request fails, the user cancels, or it comes to an uncancelled
   item with an invalid name; it is complete only when it has passed every item without stopping.
   */
  lemma EveryUploadTurnIsHeard(items: seq<UploadItem>, turns: seq<UploadTurn>)
    ensures var start := UploadStart(items);
            var end := UploadRun(start, turns);
            && Heard(end.log) == UploadHearsIn(start, turns)
            && end.cancelled == CancelledIn(start, turns)
            && (end.status == Stopped <==> RefusedIn(start, turns) || AtInvalidName(end))
            && (end.status == Running ==> InProgress(end))
            && (end.status == Complete ==> end.item == |items|)
  {
    hide UploadRun, UploadNext;
    var begin := Upload(items, 0, None, Between, {}, 0, [], Running, []);
    NextGoesOn(begin);
    assert Heard(begin.log) == [];
    var start := UploadStart(items);
    hide Heard;
    assert [] + UploadHearsIn(start, turns) == UploadHearsIn(start, turns);
    assert {} + CancelledIn(start, turns) == CancelledIn(start, turns);
    if start.status == Running {
      UploadRunHears(start, turns);
    } else {
      FinishedUploadStays(start, turns);
    }
  }

  /** The answer that counts for all items is the last one given for all, whatever else was answered since. */
  lemma {:induction false} AnswerForAllIsTheLast(log: seq<Entry>, j: nat)
    requires j < |log| && log[j].Asked? && log[j].decision.applyAll && log[j].decision.choice != Cancel
    requires forall k :: j < k < |log| && log[k].Asked? ==>
        !log[k].decision.applyAll || log[k].decision.choice == Cancel
    ensures AnswerForAll(log) == Some(log[j].decision.choice)
  {
    if j < |log| - 1 { AnswerForAllIsTheLast(log[..|log| - 1], j); }
  }

  /**
   What an answer for all means for the requests after it, in every orderly log: the first request of a later item
   carries the mode that was last chosen for all, or no mode if the last such choice was to skip or there was none.
   */
  lemma LaterItemsFollowTheAnswerForAll(log: seq<Entry>, k: nat)
    requires Orderly(log) && k < |log| && log[k].Sent? && NothingSent(log[..k], log[k].item)
    ensures log[k].conflict ==
            match AnswerForAll(log[..k])
            case Some(Use(conflict)) => conflict
            case _ => Reject
  {
    assert MayFollow(log[..k], log[k]);
    assert !JustChosen(log[..k], log[k].item) by {
      assert NothingSent(log[..k], log[k].item);
    }
  }
}
