/**
 The uploads of a page of `app.js` with the queue that they share: `fileUploadQueue`, in which every run of uploadFiles
 looks up its next task by number and which the cancel buttons, the end of an item and the end of a run shrink.

 A run is that of FileConflicts, except for what it takes to be cancelled: an item whose number it does not find in the
 queue, and the present item when the task found for it carries the flag. A task is an object, here named by its run and
 number; a queued task never has another status than 'queued' or 'running'. The conflict dialog is modal, and answers
 the run that opened it last.
 */
module UploadQueue {
  import opened FileConflicts
  import opened Wrappers

  datatype Task = Task(run: nat, index: nat)

  /** All runs so far, `uploadTask` of each, the queue, and the run that the dialog will answer. */
  datatype Page = Page(runs: seq<Upload>, holding: seq<Option<Task>>, queue: seq<Task>, dialog: Option<nat>)

  const EMPTY_PAGE := Page([], [], [], None)

  /** `cancelRequested` of a task. */
  predicate Flagged(p: Page, task: Task) {
    task.run < |p.runs| && task.index in p.runs[task.run].cancelled
  }

  /** Array.prototype.find by the number in the task's id, which does not tell runs apart. */
  function FindTask(queue: seq<Task>, index: nat): Option<Task> {
    if queue == [] then None else if queue[0].index == index then Some(queue[0]) else FindTask(queue[1..], index)
  }

  /** The queue without the task of the present item and those numbered from `from` to `to`. */
  function Shrunk(queue: seq<Task>, held: Option<Task>, from: nat, to: nat): seq<Task> {
    if queue == [] then []
    else
      (if held == Some(queue[0]) || from <= queue[0].index < to then [] else [queue[0]])
      + Shrunk(queue[1..], held, from, to)
  }

  function Tasks(run: nat, count: nat): seq<Task> {
    seq(count, i requires 0 <= i < count => Task(run, i))
  }

  /** Run `r` takes its item `i` to be cancelled. */
  predicate IsGone(p: Page, r: nat, i: nat)
    requires r < |p.runs| == |p.holding|
  {
    if i == p.runs[r].item then p.holding[r].Some? && Flagged(p, p.holding[r].value) else FindTask(p.queue, i).None?
  }

  function Gone(p: Page, r: nat): set<nat>
    requires r < |p.runs| == |p.holding|
  {
    set i: nat | i < |p.runs[r].items| && IsGone(p, r, i)
  }

  /** Run `r` has come to `v`: its tasks leave the queue, which is emptied at its end, and it looks up its next task. */
  function Settled(p: Page, r: nat, v: Upload): Page
    requires r < |p.runs| == |p.holding|
  {
    var u := p.runs[r];
    var queue :=
      if v.status != Running then []
      else if v.item == u.item then p.queue
      else Shrunk(p.queue, p.holding[r], u.item + 1, v.item);
    var held :=
      if v.status != Running then None else if v.item == u.item then p.holding[r] else FindTask(queue, v.item);
    var dialog :=
      if v.status == Running && v.stage.Asking? then Some(r) else if u.stage.Asking? then None else p.dialog;
    Page(p.runs[r := v], p.holding[r := held], queue, dialog)
  }

  datatype Event = Begin(items: seq<UploadItem>) | Press(task: Task) | Turn(run: nat, turn: UploadTurn)

  /** Only a task in the queue has a cancel button, which cannot be pressed behind the dialog. */
  predicate Enabled(p: Page, event: Event) {
    match event
    case Begin(_) => true
    case Press(task) => task in p.queue && p.dialog.None? && task.run < |p.runs|
    case Turn(r, _) =>
      r < |p.runs| == |p.holding| && p.runs[r].status == Running && (p.runs[r].stage.Asking? ==> p.dialog == Some(r))
  }

  /** The guard of uploadFiles. */
  predicate Refuses(p: Page) {
    p.queue != []
  }

  function Started(p: Page, items: seq<UploadItem>): Page {
    var r, u := |p.runs|, UploadStart(items);
    var queue := if u.status == Running then Shrunk(Tasks(r, |items|), None, 0, u.item) else [];
    Page(p.runs + [u], p.holding + [if u.status == Running then FindTask(queue, u.item) else None], queue, p.dialog)
  }

  function Cancelled(p: Page, task: Task): Page
    requires task.run < |p.runs|
  {
    var u := p.runs[task.run];
    p.(runs := p.runs[task.run := u.(cancelled := u.cancelled + {task.index})],
       queue := Shrunk(p.queue, Some(task), 0, 0))
  }

  function Turned(p: Page, r: nat, turn: UploadTurn): Page
    requires r < |p.runs| == |p.holding|
  {
    var u := p.runs[r];
    var v := UploadStep(u.(cancelled := Gone(p, r)), turn.(cancels := {}));
    Settled(p, r, v.(cancelled := u.cancelled))
  }

  function Step(p: Page, event: Event): Page
    requires Enabled(p, event)
  {
    match event
    case Begin(items) => if Refuses(p) then p else Started(p, items)
    case Press(task) => Cancelled(p, task)
    case Turn(r, turn) => Turned(p, r, turn)
  }

  /** The variables of the page that its uploads share, and the loops under way with their own. */
  class FileUploads {
    var uploads: seq<Upload>
    var uploadTasks: seq<Option<Task>>
    var fileUploadQueue: seq<Task>
    var dialog: Option<nat>

    ghost function Current(): Page
      reads this
    {
      Page(uploads, uploadTasks, fileUploadQueue, dialog)
    }

    constructor ()
      ensures Current() == EMPTY_PAGE
    {
      uploads, uploadTasks, fileUploadQueue, dialog := [], [], [], None;
    }

    /** fileUploadQueue.find by the number of a task. */
    method Find(index: nat) returns (task: Option<Task>)
      ensures task == FindTask(fileUploadQueue, index)
    {
      var k := 0;
      while k < |fileUploadQueue|
        invariant 0 <= k <= |fileUploadQueue|
        invariant FindTask(fileUploadQueue, index) == FindTask(fileUploadQueue[k..], index)
      {
        if fileUploadQueue[k].index == index { return Some(fileUploadQueue[k]); }
        assert fileUploadQueue[k..][1..] == fileUploadQueue[k + 1..];
        k := k + 1;
      }
      return None;
    }

    /** The filters over the queue: one task goes, and those of the items ended since. */
    method Filter(held: Option<Task>, from: nat, to: nat)
      modifies this`fileUploadQueue
      ensures fileUploadQueue == Shrunk(old(fileUploadQueue), held, from, to)
    {
      hide Shrunk;
      NothingToShrink(held, from, to);
      var kept, queue := [], fileUploadQueue;
      for k := 0 to |queue|
        invariant kept + Shrunk(queue[k..], held, from, to) == Shrunk(queue, held, from, to)
      {
        ShrunkStep(kept, queue, k, held, from, to);
        if held != Some(queue[k]) && !(from <= queue[k].index < to) { kept := kept + [queue[k]]; }
      }
      assert queue[|queue|..] == [];
      fileUploadQueue := kept;
    }

    /** uploadFiles up to its first await: the guard, the new queue, and the head of the loop. */
    method UploadFiles(items: seq<UploadItem>) returns (accepted: bool)
      modifies this
      ensures Current() == Step(old(Current()), Begin(items)) && accepted == !Refuses(old(Current()))
    {
      hide UploadStart, Shrunk, FindTask;
      if fileUploadQueue != [] { return false; }
      var r, u := |uploads|, UploadStart(items);
      var held := None;
      fileUploadQueue := Tasks(r, |items|);
      if u.status == Running {
        Filter(None, 0, u.item);
        held := Find(u.item);
      } else {
        fileUploadQueue := [];
      }
      uploads, uploadTasks := uploads + [u], uploadTasks + [held];
      return true;
    }

    /** `cancel` of a task: the flag, and out of the queue. */
    method CancelTask(task: Task)
      requires Enabled(Current(), Press(task))
      modifies this
      ensures Current() == Step(old(Current()), Press(task))
    {
      var u := uploads[task.run];
      Filter(Some(task), 0, 0);
      uploads := uploads[task.run := u.(cancelled := u.cancelled + {task.index})];
    }

    /**
     The numbers that an upload does not find in the queue, and its present one when the task it holds has the flag.
     */
    method LookUpCancelled(r: nat) returns (gone: set<nat>)
      requires r < |uploads| == |uploadTasks|
      ensures gone == Gone(Current(), r)
    {
      var u := uploads[r];
      gone := {};
      for i := 0 to |u.items|
        invariant forall j: nat :: j in gone <==> j < i && IsGone(Current(), r, j)
      {
        if i == u.item {
          var held := uploadTasks[r];
          if held.Some? && held.value.run < |uploads| && held.value.index in uploads[held.value.run].cancelled {
            gone := gone + {i};
          }
        } else {
          var task := Find(i);
          if task.None? { gone := gone + {i}; }
        }
      }
    }

    /** The continuation of an upload after one of its awaits. */
    method Resume(r: nat, turn: UploadTurn)
      requires Enabled(Current(), Turn(r, turn))
      modifies this
      ensures Current() == Step(old(Current()), Turn(r, turn))
    {
      hide UploadStep, Shrunk, FindTask, Gone;
      var u := uploads[r];
      var gone := LookUpCancelled(r);
      var v := UploadStep(u.(cancelled := gone), turn.(cancels := {})).(cancelled := u.cancelled);
      var held := None;
      if v.status != Running {
        fileUploadQueue := [];
      } else if v.item == u.item {
        held := uploadTasks[r];
      } else {
        Filter(uploadTasks[r], u.item + 1, v.item);
        held := Find(v.item);
      }
      if v.status == Running && v.stage.Asking? {
        dialog := Some(r);
      } else if u.stage.Asking? {
        dialog := None;
      }
      uploads, uploadTasks := uploads[r := v], uploadTasks[r := held];
    }
  }

  lemma NothingToShrink(held: Option<Task>, from: nat, to: nat)
    ensures Shrunk([], held, from, to) == []
  {
  }

  lemma ShrunkStep(kept: seq<Task>, queue: seq<Task>, k: nat, held: Option<Task>, from: nat, to: nat)
    requires k < |queue|
    ensures var stays := held != Some(queue[k]) && !(from <= queue[k].index < to);
            kept + Shrunk(queue[k..], held, from, to)
            == (if stays then kept + [queue[k]] else kept) + Shrunk(queue[k + 1..], held, from, to)
  {
    assert queue[k..][0] == queue[k] && queue[k..][1..] == queue[k + 1..];
  }

  lemma {:induction false} ShrunkMembers(queue: seq<Task>, held: Option<Task>, from: nat, to: nat)
    ensures forall t :: t in Shrunk(queue, held, from, to) <==> t in queue && held != Some(t) && !(from <= t.index < to)
  {
    if queue != [] { ShrunkMembers(queue[1..], held, from, to); }
  }

  lemma {:induction false} FindTaskMeaning(queue: seq<Task>, index: nat)
    ensures FindTask(queue, index).None? <==> forall t :: t in queue ==> t.index != index
    ensures FindTask(queue, index).Some? ==>
              FindTask(queue, index).value in queue && FindTask(queue, index).value.index == index
  {
    if queue != [] { FindTaskMeaning(queue[1..], index); }
  }

  lemma TasksMembers(run: nat, count: nat)
    ensures forall t :: t in Tasks(run, count) <==> t.run == run && t.index < count
  {
    forall t: Task | t.run == run && t.index < count ensures t in Tasks(run, count) {
      assert Tasks(run, count)[t.index] == t;
    }
  }

  /** Two ways of seeing cancellations agree from the present item on. */
  predicate SameAhead(u: Upload, c: set<nat>) {
    forall i: nat :: u.item <= i < |u.items| ==> (i in u.cancelled <==> i in c)
  }

  lemma {:induction false} FolderLooksAhead(u: Upload, folder: nat, c: set<nat>)
    requires u.item < |u.items| && SameAhead(u, c)
    ensures UploadFolder(u.(cancelled := c), folder) == UploadFolder(u, folder).(cancelled := c)
    decreases |u.items| - u.item, 0
  {
    if folder >= u.items[u.item].folders && u.items[u.item].directory { ItemEndLooksAhead(u, WasCreated, c); }
  }

  lemma {:induction false} ItemEndLooksAhead(u: Upload, outcome: Outcome, c: set<nat>)
    requires u.item < |u.items| && SameAhead(u, c)
    ensures UploadItemEnds(u.(cancelled := c), outcome) == UploadItemEnds(u, outcome).(cancelled := c)
    decreases |u.items| - u.item - 1, 2
  {
    NextLooksAhead(u.(item := u.item + 1, stage := Between, outcomes := u.outcomes + [outcome]), c);
  }

  lemma {:induction false} NextLooksAhead(u: Upload, c: set<nat>)
    requires u.item <= |u.items| && SameAhead(u, c)
    ensures UploadNext(u.(cancelled := c)) == UploadNext(u).(cancelled := c)
    decreases |u.items| - u.item, 1
  {
    if u.item < |u.items| {
      if u.item in u.cancelled {
        ItemEndLooksAhead(u, WasCancelled, c);
      } else if u.items[u.item].validName {
        FolderLooksAhead(u, 0, c);
      }
    }
  }

  /** A step depends on the cancellations of the present and later items only. */
  lemma StepLooksAhead(u: Upload, turn: UploadTurn, c: set<nat>)
    requires SameAhead(u, c) && turn.cancels == {}
    requires u.status == Running && u.item < |u.items| && !u.stage.Between?
    ensures UploadStep(u.(cancelled := c), turn).(cancelled := u.cancelled) == UploadStep(u, turn)
  {
    hide UploadFolder, UploadItemEnds, FirstConflict;
    assert u.cancelled + {} == u.cancelled && c + {} == c;
    if u.stage.Statting? || u.stage.Creating? {
      FolderLooksAhead(FolderEnsured(u, u.stage.folder), u.stage.folder + 1, c);
      FolderAdvances(FolderEnsured(u, u.stage.folder), u.stage.folder + 1);
    } else if u.stage.Uploading? {
      var replied := u.(log := u.log + [Replied(u.item, turn.reply)]);
      EndLooksAhead(replied, WasDone, c);
      EndLooksAhead(replied, WasCancelled, c);
      EndLooksAhead(replied.(skipped := u.skipped + 1), WasSkipped, c);
    } else {
      var answer := turn.answer;
      var asked := u.(log := u.log + [Asked(u.item, answer)],
                      forAll := if answer.applyAll && answer.choice != Cancel then Some(answer.choice) else u.forAll);
      EndLooksAhead(asked.(skipped := u.skipped + 1), WasSkipped, c);
    }
  }

  lemma EndLooksAhead(u: Upload, outcome: Outcome, c: set<nat>)
    requires u.item < |u.items| && SameAhead(u, c)
    ensures UploadItemEnds(u.(cancelled := c), outcome).(cancelled := u.cancelled) == UploadItemEnds(u, outcome)
  {
    hide UploadItemEnds;
    ItemEndLooksAhead(u, outcome, c);
    ItemEndAdvances(u, outcome);
  }

  /** The state `u` is that of a run from `start` on its own, but for cancellations since its last turn. */
  ghost predicate Follows(start: Upload, u: Upload, turns: seq<UploadTurn>) {
    var v := UploadRun(start, turns);
    v.cancelled <= u.cancelled && u == v.(cancelled := u.cancelled)
  }

  ghost predicate IsRunFrom(start: Upload, u: Upload) {
    exists turns :: Follows(start, u, turns)
  }

  lemma {:induction false} RunOneMore(u: Upload, turns: seq<UploadTurn>, turn: UploadTurn)
    ensures UploadRun(u, turns + [turn]) == UploadStep(UploadRun(u, turns), turn)
    decreases |turns|
  {
    hide UploadStep;
    if turns == [] {
      assert [turn][1..] == [] && turns + [turn] == [turn];
      assert UploadRun(u, [turn]) == UploadRun(UploadStep(u, turn), []);
    } else {
      assert (turns + [turn])[1..] == turns[1..] + [turn];
      RunOneMore(UploadStep(u, turns[0]), turns[1..], turn);
    }
  }

  lemma TurnFollows(start: Upload, u: Upload, turn: UploadTurn)
    requires IsRunFrom(start, u) && turn.cancels == {} && u.status == Running && u.item < |u.items|
    requires !u.stage.Between?
    ensures IsRunFrom(start, UploadStep(u, turn))
  {
    var turns :| Follows(start, u, turns);
    var v := UploadRun(start, turns);
    var catching := turn.(cancels := u.cancelled);
    RunOneMore(start, turns, catching);
    assert v.cancelled + u.cancelled == u.cancelled == u.cancelled + {};
    assert UploadStep(v, catching) == UploadStep(u, turn);
    assert Follows(start, UploadStep(u, turn), turns + [catching]);
  }

  lemma CancelFollows(start: Upload, u: Upload, index: nat)
    requires IsRunFrom(start, u)
    ensures IsRunFrom(start, u.(cancelled := u.cancelled + {index}))
  {
    var turns :| Follows(start, u, turns);
    assert Follows(start, u.(cancelled := u.cancelled + {index}), turns);
  }

  lemma StartFollows(u: Upload)
    ensures IsRunFrom(u, u)
  {
    assert Follows(u, u, []);
  }

  lemma RunFits(start: Upload, u: Upload)
    requires UploadFits(start) && IsRunFrom(start, u)
    ensures UploadFits(u)
  {
    hide UploadFits;
    var turns :| Follows(start, u, turns);
    UploadRunFits(start, turns);
    CancellingFits(UploadRun(start, turns), u.cancelled);
    assert UploadRun(start, turns).cancelled + u.cancelled == u.cancelled;
  }

  /** A turn of a running upload leaves the cancellations alone, and stops at an item that is not cancelled. */
  lemma StepAdvances(u: Upload, turn: UploadTurn)
    requires u.status == Running && u.item < |u.items| && !u.stage.Between? && turn.cancels == {}
    ensures var v := UploadStep(u, turn);
            && v.cancelled == u.cancelled && u.item <= v.item
            && (v.status == Running ==>
                  && v.item < |u.items| && !v.stage.Between?
                  && (u.item < v.item ==> v.item !in u.cancelled)
                  && (v.stage.Asking? ==> v.item == u.item && u.item !in u.cancelled))
  {
    hide UploadFolder, UploadItemEnds, FirstConflict;
    assert u.cancelled + {} == u.cancelled;
    if u.stage.Statting? || u.stage.Creating? {
      FolderAdvances(FolderEnsured(u, u.stage.folder), u.stage.folder + 1);
    } else if u.stage.Uploading? {
      var replied := u.(log := u.log + [Replied(u.item, turn.reply)]);
      ItemEndAdvances(replied, WasDone);
      ItemEndAdvances(replied, WasCancelled);
      ItemEndAdvances(replied.(skipped := u.skipped + 1), WasSkipped);
    } else {
      var answer := turn.answer;
      var asked := u.(log := u.log + [Asked(u.item, answer)],
                      forAll := if answer.applyAll && answer.choice != Cancel then Some(answer.choice) else u.forAll);
      ItemEndAdvances(asked.(skipped := u.skipped + 1), WasSkipped);
    }
  }

  predicate NoneRunning(p: Page) {
    forall r :: 0 <= r < |p.runs| ==> p.runs[r].status != Running
  }

  /** Every run of the page is a run of its own items. */
  ghost predicate RunsFit(p: Page) {
    forall r :: 0 <= r < |p.runs| ==> IsRunFrom(UploadStart(p.runs[r].items), p.runs[r])
  }

  /** An uncancelled task of run `r`, from its present item on. */
  predicate IsAhead(u: Upload, r: nat, t: Task) {
    t.run == r && u.item <= t.index < |u.items| && t.index !in u.cancelled
  }

  /** The queue is that of run `r`: its uncancelled tasks from the present one on. */
  ghost predicate Owns(p: Page, r: nat)
    requires r < |p.runs| == |p.holding|
  {
    var u := p.runs[r];
    && u.item < |u.items| && !u.stage.Between?
    && p.holding[r] == Some(Task(r, u.item))
    && (forall t :: t in p.queue <==> IsAhead(u, r, t))
    && p.dialog == (if u.stage.Asking? then Some(r) else None)
    && (u.stage.Asking? ==> u.item !in u.cancelled)
  }

  /** At most the last run is under way, and the queue is its own; otherwise it is empty. */
  ghost predicate Alone(p: Page) {
    && |p.holding| == |p.runs|
    && (forall r :: 0 <= r < |p.runs| - 1 ==> p.runs[r].status != Running)
    && if p.runs != [] && p.runs[|p.runs| - 1].status == Running then Owns(p, |p.runs| - 1)
       else p.queue == [] && p.dialog == None
  }

  lemma GoneIsCancelled(p: Page, r: nat)
    requires r < |p.runs| == |p.holding| && Owns(p, r)
    ensures SameAhead(p.runs[r], Gone(p, r))
  {
    var u := p.runs[r];
    forall i: nat | u.item <= i < |u.items| ensures i in u.cancelled <==> i in Gone(p, r) {
      FindTaskMeaning(p.queue, i);
      assert IsAhead(u, r, Task(r, i)) <==> i !in u.cancelled;
    }
  }

  /** While a run owns the queue, a turn of it is a turn of the run on its own. */
  lemma TurnIsOwn(p: Page, r: nat, turn: UploadTurn)
    requires r < |p.runs| == |p.holding| && Owns(p, r) && p.runs[r].status == Running
    ensures Turned(p, r, turn) == Settled(p, r, UploadStep(p.runs[r], turn.(cancels := {})))
  {
    hide UploadStep, Gone, Settled;
    GoneIsCancelled(p, r);
    StepLooksAhead(p.runs[r], turn.(cancels := {}), Gone(p, r));
  }

  lemma SettledOwns(p: Page, r: nat, v: Upload)
    requires r < |p.runs| == |p.holding| && Owns(p, r) && v.status == Running
    requires v.items == p.runs[r].items && v.cancelled == p.runs[r].cancelled && !v.stage.Between?
    requires p.runs[r].item <= v.item < |v.items| && (p.runs[r].item < v.item ==> v.item !in v.cancelled)
    requires v.stage.Asking? ==> v.item == p.runs[r].item && v.item !in v.cancelled
    ensures Owns(Settled(p, r, v), r)
  {
    var u, q := p.runs[r], Settled(p, r, v);
    if u.item < v.item {
      ShrunkMembers(p.queue, p.holding[r], u.item + 1, v.item);
      FindTaskMeaning(q.queue, v.item);
      assert forall t :: t in q.queue <==> IsAhead(v, r, t);
      assert IsAhead(v, r, Task(r, v.item));
    } else {
      assert forall t :: IsAhead(v, r, t) <==> IsAhead(u, r, t);
    }
  }

  lemma TurnKeepsAlone(p: Page, r: nat, turn: UploadTurn)
    requires Alone(p) && RunsFit(p) && Enabled(p, Turn(r, turn))
    ensures Alone(Turned(p, r, turn)) && RunsFit(Turned(p, r, turn))
  {
    hide UploadStep, Gone, Turned, IsRunFrom, UploadStart;
    assert r == |p.runs| - 1;
    var u, own := p.runs[r], turn.(cancels := {});
    var v := UploadStep(u, own);
    TurnIsOwn(p, r, turn);
    StepAdvances(u, own);
    TurnFollows(UploadStart(u.items), u, own);
    if v.status == Running { SettledOwns(p, r, v); }
  }

  lemma PressKeepsAlone(p: Page, task: Task)
    requires Alone(p) && RunsFit(p) && Enabled(p, Press(task))
    ensures Alone(Cancelled(p, task)) && RunsFit(Cancelled(p, task))
  {
    hide IsRunFrom, UploadStart;
    var r, q := |p.runs| - 1, Cancelled(p, task);
    assert IsAhead(p.runs[r], r, task);
    ShrunkMembers(p.queue, Some(task), 0, 0);
    CancelFollows(UploadStart(p.runs[r].items), p.runs[r], task.index);
    assert forall t :: IsAhead(q.runs[r], r, t) <==> IsAhead(p.runs[r], r, t) && t != task;
  }

  lemma StartIsAhead(items: seq<UploadItem>)
    ensures UploadFits(UploadStart(items)) && UploadStart(items).items == items
    ensures var u := UploadStart(items);
            && u.cancelled == {}
            && (u.status == Running ==> u.item < |items| && (u.stage.Statting? || u.stage.Uploading?))
  {
    var empty := Upload(items, 0, None, Between, {}, 0, [], Running, []);
    NothingLoggedYet();
    hide UploadFits, UploadNext, Orderly, AnswerForAll;
    NextFits(empty);
    NextAdvances(empty);
  }

  lemma StartedOwns(p: Page, items: seq<UploadItem>)
    requires |p.holding| == |p.runs| && p.dialog.None? && UploadStart(items).status == Running
    ensures Owns(Started(p, items), |p.runs|)
  {
    hide UploadStart;
    var r, u, q := |p.runs|, UploadStart(items), Started(p, items);
    StartIsAhead(items);
    TasksMembers(r, |items|);
    ShrunkMembers(Tasks(r, |items|), None, 0, u.item);
    FindTaskMeaning(q.queue, u.item);
    hide Shrunk, FindTask, Tasks;
    assert forall t :: t in q.queue <==> IsAhead(u, r, t);
    assert IsAhead(u, r, Task(r, u.item));
  }

  lemma StartedRunsFit(p: Page, items: seq<UploadItem>)
    requires RunsFit(p)
    ensures RunsFit(Started(p, items))
  {
    hide IsRunFrom, UploadStart, Shrunk, FindTask, Tasks;
    StartIsAhead(items);
    StartFollows(UploadStart(items));
  }

  lemma BeginKeepsAlone(p: Page, items: seq<UploadItem>)
    requires Alone(p) && RunsFit(p) && !Refuses(p) && NoneRunning(p)
    ensures Alone(Started(p, items)) && RunsFit(Started(p, items))
  {
    hide RunsFit, UploadStart, Owns, Shrunk, FindTask, Tasks;
    StartedRunsFit(p, items);
    if UploadStart(items).status == Running { StartedOwns(p, items); }
  }

  ghost predicate Feasible(p: Page, events: seq<Event>)
    decreases |events|
  {
    events == [] || (Enabled(p, events[0]) && Feasible(Step(p, events[0]), events[1..]))
  }

  ghost function Run(p: Page, events: seq<Event>): Page
    requires Feasible(p, events)
    decreases |events|
  {
    if events == [] then p else Run(Step(p, events[0]), events[1..])
  }

  /** No upload starts while an older one still runs. */
  ghost predicate OneAtATime(p: Page, events: seq<Event>)
    requires Feasible(p, events)
    decreases |events|
  {
    events == []
    || ((events[0].Begin? && !Refuses(p) ==> NoneRunning(p)) && OneAtATime(Step(p, events[0]), events[1..]))
  }

  lemma {:induction false} RunKeepsAlone(p: Page, events: seq<Event>)
    requires Alone(p) && RunsFit(p) && Feasible(p, events) && OneAtATime(p, events)
    ensures Alone(Run(p, events)) && RunsFit(Run(p, events))
    decreases |events|
  {
    if events != [] {
      hide Alone, RunsFit, Started, Cancelled, Turned, NoneRunning;
      match events[0] {
        case Begin(items) => if !Refuses(p) { BeginKeepsAlone(p, items); }
        case Press(task) => PressKeepsAlone(p, task);
        case Turn(r, turn) => TurnKeepsAlone(p, r, turn);
      }
      RunKeepsAlone(Step(p, events[0]), events[1..]);
    }
  }

  /** What an upload owes to the user, as for a run on its own. */
  ghost predicate HonoursTheUser(u: Upload) {
    && Orderly(u.log) && FoldersFirst(u.items, u.log)
    && OutcomesFit(u.log, u.cancelled, u.outcomes) && KindsFit(u.items, u.log, u.outcomes)
    && |u.outcomes| == u.item <= |u.items|
    && u.skipped == Count(u.outcomes, WasSkipped)
    && (u.status == Complete ==>
          |u.items| == |u.outcomes|
          == Count(u.outcomes, WasDone) + Count(u.outcomes, WasCreated) + u.skipped + Count(u.outcomes, WasCancelled))
  }

  /**
   As long as no upload starts while an older one still runs, every upload of the page, whatever is pressed and answered
   in between, is a run on its own and honours the user.
   */
  lemma UploadsOneAtATimeHonourTheUser(events: seq<Event>)
    requires Feasible(EMPTY_PAGE, events) && OneAtATime(EMPTY_PAGE, events)
    ensures var p := Run(EMPTY_PAGE, events);
            forall r :: 0 <= r < |p.runs| ==>
              HonoursTheUser(p.runs[r]) && IsRunFrom(UploadStart(p.runs[r].items), p.runs[r])
  {
    hide Alone, IsRunFrom, UploadStart;
    AloneAtFirst();
    RunKeepsAlone(EMPTY_PAGE, events);
    var p := Run(EMPTY_PAGE, events);
    forall r | 0 <= r < |p.runs| ensures HonoursTheUser(p.runs[r]) {
      FittingRunHonoursTheUser(p.runs[r]);
    }
  }

  lemma FittingRunHonoursTheUser(u: Upload)
    requires IsRunFrom(UploadStart(u.items), u)
    ensures UploadFits(u) && HonoursTheUser(u)
  {
    StartIsAhead(u.items);
    hide UploadStart;
    RunFits(UploadStart(u.items), u);
    hide Orderly, FoldersFirst, OutcomesFit, KindsFit, Count, AnswerForAll, IsRunFrom;
    CountsAddUp(u.outcomes);
  }

  lemma AloneAtFirst()
    ensures Alone(EMPTY_PAGE) && RunsFit(EMPTY_PAGE)
  {
  }

  lemma FollowerIsInProgress(items: seq<UploadItem>, u: Upload)
    requires IsRunFrom(UploadStart(items), u) && u.status == Running
    ensures InProgress(u)
  {
    var turns :| Follows(UploadStart(items), u, turns);
    hide UploadRun, UploadNext, InProgress;
    EveryUploadTurnIsHeard(items, turns);
    var v := UploadRun(UploadStart(items), turns);
    assert InProgress(v);
    SameProgress(v, u.cancelled);
  }

  lemma SameProgress(u: Upload, cancelled: set<nat>)
    ensures InProgress(u.(cancelled := cancelled)) == InProgress(u)
  {
  }

  /**
   No upload hangs: after any such history, an upload under way can take its next turn, the dialog included, and takes
   it as the answer it waits for: it adds that to its log, stops exactly at a failure, a cancelled dialog or an invalid
   name, and otherwise goes on.
   */
  lemma EveryTurnOfThePageIsTaken(events: seq<Event>, r: nat, turn: UploadTurn)
    requires Feasible(EMPTY_PAGE, events) && OneAtATime(EMPTY_PAGE, events)
    requires r < |Run(EMPTY_PAGE, events).runs| && Run(EMPTY_PAGE, events).runs[r].status == Running
    ensures var p := Run(EMPTY_PAGE, events);
            && Enabled(p, Turn(r, turn))
            && TakesTurn(p.runs[r], turn.(cancels := {}), Step(p, Turn(r, turn)).runs[r])
  {
    AloneAtFirst();
    RunKeepsAlone(EMPTY_PAGE, events);
    var p := Run(EMPTY_PAGE, events);
    hide Run, Feasible, OneAtATime, UploadStep, TakesTurn, Gone, UploadStart;
    FollowerIsInProgress(p.runs[r].items, p.runs[r]);
    UploadTurnIsTaken(p.runs[r], turn.(cancels := {}));
    TurnIsOwn(p, r, turn);
  }

  /** Some item of an upload under way, from its present one on, is not cancelled. */
  ghost predicate SomethingLeft(p: Page) {
    exists r, i: nat :: IsLeft(p, r, i)
  }

  predicate IsLeft(p: Page, r: int, i: nat) {
    && 0 <= r < |p.runs| && p.runs[r].status == Running
    && p.runs[r].item <= i < |p.runs[r].items| && i !in p.runs[r].cancelled
  }

  lemma GuardOfAlonePage(p: Page)
    requires Alone(p)
    ensures Refuses(p) <==> SomethingLeft(p)
  {
    var last := |p.runs| - 1;
    if p.queue != [] {
      var t := p.queue[0];
      assert t in p.queue && IsAhead(p.runs[last], last, t);
      assert IsLeft(p, last, t.index);
    }
    if SomethingLeft(p) {
      var r, i: nat :| IsLeft(p, r, i);
      assert r == last && IsAhead(p.runs[last], last, Task(last, i));
      assert Task(last, i) in p.queue;
    }
  }

  /**
   The guard of uploadFiles, after any such history: an upload is refused if and only if some item of the upload under
   way, from the present one on, is not cancelled. So an upload can start beside an older one exactly when all that is
   left of that one has been cancelled.
   */
  lemma GuardRefusesExactlyWhen(events: seq<Event>)
    requires Feasible(EMPTY_PAGE, events) && OneAtATime(EMPTY_PAGE, events)
    ensures Refuses(Run(EMPTY_PAGE, events)) <==> SomethingLeft(Run(EMPTY_PAGE, events))
  {
    hide Alone, RunsFit, SomethingLeft;
    AloneAtFirst();
    RunKeepsAlone(EMPTY_PAGE, events);
    GuardOfAlonePage(Run(EMPTY_PAGE, events));
  }

  /** What a run of the page becomes in a step is what a run on its own can become. */
  lemma StepFollows(p: Page, event: Event, r: nat, start: Upload)
    requires Alone(p) && Enabled(p, event) && r < |p.runs| && IsRunFrom(start, p.runs[r])
    ensures r < |Step(p, event).runs| && IsRunFrom(start, Step(p, event).runs[r])
  {
    hide IsRunFrom, UploadStep, Gone, UploadStart, Shrunk, FindTask, Tasks;
    match event
    case Begin(_) =>
    case Press(task) => if task.run == r { CancelFollows(start, p.runs[r], task.index); }
    case Turn(k, turn) =>
      TurnIsOwn(p, k, turn);
      if k == r { TurnFollows(start, p.runs[r], turn.(cancels := {})); }
  }

  lemma {:induction false} RunFollows(p: Page, events: seq<Event>, r: nat, start: Upload)
    requires Alone(p) && RunsFit(p) && Feasible(p, events) && OneAtATime(p, events)
    requires r < |p.runs| && IsRunFrom(start, p.runs[r])
    ensures r < |Run(p, events).runs| && IsRunFrom(start, Run(p, events).runs[r])
    decreases |events|
  {
    if events != [] {
      hide Alone, RunsFit, IsRunFrom, Step, Enabled, NoneRunning;
      StepFollows(p, events[0], r, start);
      RunKeepsAlone(p, [events[0]]);
      assert [events[0]][1..] == [];
      assert Run(p, [events[0]]) == Run(Step(p, events[0]), []);
      RunFollows(Step(p, events[0]), events[1..], r, start);
    }
  }

  /**
   An item that was cancelled before it began, or while its request was under way, is not sent by anything that happens
   on the page afterwards.
   */
  lemma CancelledItemStaysUnsent(before: seq<Event>, later: seq<Event>, r: nat, item: nat)
    requires Feasible(EMPTY_PAGE, before) && OneAtATime(EMPTY_PAGE, before)
    requires var p := Run(EMPTY_PAGE, before);
             && Feasible(p, later) && OneAtATime(p, later) && r < |p.runs| && item in p.runs[r].cancelled
             && (p.runs[r].item < item || (p.runs[r].item == item && p.runs[r].stage.Uploading?))
    ensures var p := Run(EMPTY_PAGE, before);
            r < |Run(p, later).runs| && AddsNoRequest(p.runs[r], Run(p, later).runs[r], item)
  {
    hide Alone, RunsFit;
    AloneAtFirst();
    RunKeepsAlone(EMPTY_PAGE, before);
    var p := Run(EMPTY_PAGE, before);
    StartFollows(p.runs[r]);
    RunFollows(p, later, r, p.runs[r]);
    var turns :| Follows(p.runs[r], Run(p, later).runs[r], turns);
    CancelledItemIsNeverSent(p.runs[r], turns, item);
  }

  /**
   A cancelled item is sent by a turn of the page exactly when it was cancelled among its folders and the last of them
   is there now: behind an open dialog nothing can be cancelled.
   */
  lemma CancelledItemIsSentExactlyAfterItsFolders(events: seq<Event>, r: nat, turn: UploadTurn)
    requires Feasible(EMPTY_PAGE, events) && OneAtATime(EMPTY_PAGE, events)
    requires var p := Run(EMPTY_PAGE, events); Enabled(p, Turn(r, turn)) && p.runs[r].item in p.runs[r].cancelled
    ensures var p := Run(EMPTY_PAGE, events);
            var u, v := p.runs[r], Step(p, Turn(r, turn)).runs[r];
            && u.item < |u.items| && !u.stage.Asking?
            && (v.item == u.item && |v.log| > |u.log| && v.log[|v.log| - 1].Sent?
                <==> match u.stage
                     case Statting(folder) =>
                       turn.stat == Directory && folder + 1 >= u.items[u.item].folders && !u.items[u.item].directory
                     case Creating(folder) =>
                       turn.created && folder + 1 >= u.items[u.item].folders && !u.items[u.item].directory
                     case _ => false)
  {
    AloneAtFirst();
    RunKeepsAlone(EMPTY_PAGE, events);
    var p := Run(EMPTY_PAGE, events);
    hide RunsFit, UploadStep, Run, Feasible, Turned, Gone;
    TurnIsOwn(p, r, turn);
    CancelledItemIsStillSent(p.runs[r], turn.(cancels := {}));
  }

  /** Any folder is found, and any request succeeds. */
  const FINE := UploadTurn({}, Directory, false, Done, Decision(Choice.Cancel, false))

  const NESTED := [UploadItem(false, true, 1), UploadItem(false, true, 1)]
  const FLAT := [UploadItem(false, true, 0), UploadItem(false, true, 0)]

  /** A first upload of two files of one folder, both cancelled while that is looked up, and then a second upload. */
  const OVERLAPPING := Page(
    [Upload(NESTED, 0, None, Statting(0), {0, 1}, 0, [], Running, []),
     Upload(FLAT, 0, None, Uploading(Reject), {}, 0, [], Running, [Sent(0, Reject)])],
    [Some(Task(0, 0)), Some(Task(1, 0))], [Task(1, 0), Task(1, 1)], None)

  lemma OneMore(p: Page, event: Event, rest: seq<Event>)
    requires Enabled(p, event) && Feasible(Step(p, event), rest)
    ensures Feasible(p, [event] + rest) && Run(p, [event] + rest) == Run(Step(p, event), rest)
    ensures event.Begin? && !Refuses(p) && !NoneRunning(p) ==> !OneAtATime(p, [event] + rest)
    ensures !OneAtATime(Step(p, event), rest) ==> !OneAtATime(p, [event] + rest)
  {
    assert ([event] + rest)[1..] == rest;
  }

  lemma {:induction false} NothingShrunk(queue: seq<Task>)
    ensures Shrunk(queue, None, 0, 0) == queue
  {
    if queue != [] { NothingShrunk(queue[1..]); }
  }

  const BEGUN := Page([Upload(NESTED, 0, None, Statting(0), {}, 0, [], Running, [])],
                      [Some(Task(0, 0))], [Task(0, 0), Task(0, 1)], None)

  const ONE_PRESSED := Page([Upload(NESTED, 0, None, Statting(0), {0}, 0, [], Running, [])],
                            [Some(Task(0, 0))], [Task(0, 1)], None)

  const BOTH_PRESSED := Page([Upload(NESTED, 0, None, Statting(0), {0, 1}, 0, [], Running, [])],
                             [Some(Task(0, 0))], [], None)

  lemma FirstUploadBegins()
    ensures Step(EMPTY_PAGE, Begin(NESTED)) == BEGUN
  {
    assert Tasks(0, 2) == [Task(0, 0), Task(0, 1)];
    NothingShrunk(Tasks(0, 2));
  }

  lemma BothArePressed()
    ensures Enabled(BEGUN, Press(Task(0, 0))) && Step(BEGUN, Press(Task(0, 0))) == ONE_PRESSED
    ensures Enabled(ONE_PRESSED, Press(Task(0, 1))) && Step(ONE_PRESSED, Press(Task(0, 1))) == BOTH_PRESSED
  {
    assert BEGUN.queue[1..] == ONE_PRESSED.queue && ONE_PRESSED.queue[1..] == [];
    assert [] + Shrunk([Task(0, 1)], Some(Task(0, 0)), 0, 0) == [Task(0, 1)];
    assert [] + Shrunk([], Some(Task(0, 1)), 0, 0) == [];
    assert {} + {0} == {0} && {0} + {1} == {0, 1};
    assert Cancelled(BEGUN, Task(0, 0)).runs == ONE_PRESSED.runs;
  }

  lemma SecondUploadBegins()
    ensures Step(BOTH_PRESSED, Begin(FLAT)) == OVERLAPPING
  {
    var flat := UploadStart(FLAT);
    assert flat == OVERLAPPING.runs[1];
    assert Tasks(1, 2) == [Task(1, 0), Task(1, 1)];
    NothingShrunk(Tasks(1, 2));
  }

  lemma OverlappingIsReachable()
    ensures var events := [Begin(NESTED), Press(Task(0, 0)), Press(Task(0, 1)), Begin(FLAT)];
            && Feasible(EMPTY_PAGE, events) && Run(EMPTY_PAGE, events) == OVERLAPPING
            && !OneAtATime(EMPTY_PAGE, events)
  {
    FirstUploadBegins();
    BothArePressed();
    SecondUploadBegins();
    assert BOTH_PRESSED.runs[0].status == Running;
    assert !NoneRunning(BOTH_PRESSED) && !Refuses(BOTH_PRESSED);
    hide Step, Enabled;
    OneMore(BOTH_PRESSED, Begin(FLAT), []);
    OneMore(ONE_PRESSED, Press(Task(0, 1)), [Begin(FLAT)]);
    OneMore(BEGUN, Press(Task(0, 0)), [Press(Task(0, 1)), Begin(FLAT)]);
    OneMore(EMPTY_PAGE, Begin(NESTED), [Press(Task(0, 0)), Press(Task(0, 1)), Begin(FLAT)]);
  }

  /** The first upload finds the folder and sends its first file; then it takes the second upload's task for its own. */
  const FIRST_SENT := OVERLAPPING.(runs := [
    OVERLAPPING.runs[0].(stage := Uploading(Reject), log := [Ensured(0, 0), Sent(0, Reject)]), OVERLAPPING.runs[1]])

  const BORROWED := FIRST_SENT.(
    runs := [Upload(NESTED, 1, None, Statting(0), {0, 1}, 0, [WasDone], Running,
                    [Ensured(0, 0), Sent(0, Reject), Replied(0, Done)]),
             OVERLAPPING.runs[1]],
    holding := [Some(Task(1, 1)), Some(Task(1, 0))])

  const SECOND_SENT := BORROWED.(runs := [
    BORROWED.runs[0].(stage := Uploading(Reject), log := BORROWED.runs[0].log + [Ensured(1, 0), Sent(1, Reject)]),
    OVERLAPPING.runs[1]])

  const FIRST_OVER := Page(
    [Upload(NESTED, 2, None, Between, {0, 1}, 0, [WasDone, WasDone], Complete,
            SECOND_SENT.runs[0].log + [Replied(1, Done)]),
     OVERLAPPING.runs[1]],
    [None, Some(Task(1, 0))], [], None)

  const BOTH_OVER := FIRST_OVER.(
    runs := [FIRST_OVER.runs[0],
             Upload(FLAT, 2, None, Between, {}, 0, [WasDone, WasCancelled], Complete,
                    [Sent(0, Reject), Replied(0, Done)])],
    holding := [None, None])

  lemma FirstFileIsSent()
    ensures Enabled(OVERLAPPING, Turn(0, FINE)) && Step(OVERLAPPING, Turn(0, FINE)) == FIRST_SENT
  {
    var u := OVERLAPPING.runs[0];
    assert Gone(OVERLAPPING, 0) == {0} by { assert OVERLAPPING.queue[1..][0] == Task(1, 1); }
    assert UploadStep(u.(cancelled := {0}), FINE).(cancelled := {0, 1}) == FIRST_SENT.runs[0];
  }

  lemma SecondTaskIsBorrowed()
    ensures Enabled(FIRST_SENT, Turn(0, FINE)) && Step(FIRST_SENT, Turn(0, FINE)) == BORROWED
  {
    var u := FIRST_SENT.runs[0];
    assert FIRST_SENT.queue[1..] == [Task(1, 1)];
    assert Gone(FIRST_SENT, 0) == {0};
    var replied := u.(cancelled := {0} + {}, log := u.log + [Replied(0, Done)]);
    var next := replied.(item := 1, stage := Between, outcomes := [] + [WasDone]);
    assert {0} + {} == {0} && replied.log == BORROWED.runs[0].log && next.outcomes == [WasDone];
    assert UploadNext(next) == UploadFolder(next, 0) == next.(stage := Statting(0));
    assert UploadStep(u.(cancelled := {0}), FINE) == AfterReply(replied, Done) == UploadItemEnds(replied, WasDone);
    assert UploadStep(u.(cancelled := {0}), FINE).(cancelled := {0, 1}) == BORROWED.runs[0];
    assert Shrunk(FIRST_SENT.queue, Some(Task(0, 0)), 1, 1) == FIRST_SENT.queue;
  }

  lemma SecondFileIsSent()
    ensures Enabled(BORROWED, Turn(0, FINE)) && Step(BORROWED, Turn(0, FINE)) == SECOND_SENT
  {
    var u := BORROWED.runs[0];
    assert Gone(BORROWED, 0) == {};
    assert UploadStep(u.(cancelled := {}), FINE).(cancelled := {0, 1}) == SECOND_SENT.runs[0];
  }

  lemma FirstUploadEnds()
    ensures Enabled(SECOND_SENT, Turn(0, FINE)) && Step(SECOND_SENT, Turn(0, FINE)) == FIRST_OVER
  {
    var u := SECOND_SENT.runs[0];
    assert Gone(SECOND_SENT, 0) == {};
    var replied := u.(cancelled := {} + {}, log := u.log + [Replied(1, Done)]);
    var next := replied.(item := 2, stage := Between, outcomes := [WasDone] + [WasDone]);
    assert replied.cancelled == {} && next.outcomes == [WasDone, WasDone];
    assert UploadNext(next) == next.(status := Complete);
    assert UploadStep(u.(cancelled := {}), FINE) == AfterReply(replied, Done) == UploadItemEnds(replied, WasDone);
    assert UploadStep(u.(cancelled := {}), FINE).(cancelled := {0, 1}) == FIRST_OVER.runs[0];
  }

  lemma SecondUploadEnds()
    ensures Enabled(FIRST_OVER, Turn(1, FINE)) && Step(FIRST_OVER, Turn(1, FINE)) == BOTH_OVER
  {
    var u := FIRST_OVER.runs[1];
    assert Gone(FIRST_OVER, 1) == {1};
    var replied := u.(cancelled := {1} + {}, log := u.log + [Replied(0, Done)]);
    var next := replied.(item := 1, stage := Between, outcomes := [] + [WasDone]);
    var passed := next.(item := 2, outcomes := next.outcomes + [WasCancelled]);
    assert next.outcomes == [WasDone] && passed.outcomes == [WasDone, WasCancelled];
    assert replied.log == BOTH_OVER.runs[1].log && {1} + {} == {1};
    assert UploadNext(passed) == passed.(status := Complete);
    assert UploadNext(next) == UploadItemEnds(next, WasCancelled) == UploadNext(passed);
    assert UploadStep(u.(cancelled := {1}), FINE) == AfterReply(replied, Done) == UploadItemEnds(replied, WasDone);
    assert UploadStep(u.(cancelled := {1}), FINE).(cancelled := {}) == BOTH_OVER.runs[1];
  }

  /**
   Why uploads must not overlap: the first upload goes on to send both files, of which the second was cancelled before
   it began, and its end empties the queue, so that the second upload passes over a file that nobody cancelled.
   */
  lemma OverlappingUploadsMixTheirTasks()
    ensures var turns := [Turn(0, FINE), Turn(0, FINE), Turn(0, FINE), Turn(0, FINE), Turn(1, FINE)];
            && Feasible(OVERLAPPING, turns) && Run(OVERLAPPING, turns) == BOTH_OVER
            && var first, second := BOTH_OVER.runs[0], BOTH_OVER.runs[1];
               && OVERLAPPING.runs[0].cancelled == {0, 1} && OVERLAPPING.runs[0].item == 0
               && first.log == [Ensured(0, 0), Sent(0, Reject), Replied(0, Done),
                                Ensured(1, 0), Sent(1, Reject), Replied(1, Done)]
               && second.cancelled == {} && second.outcomes == [WasDone, WasCancelled] && second.status == Complete
               && !HonoursTheUser(second)
  {
    FirstFileIsSent();
    SecondTaskIsBorrowed();
    SecondFileIsSent();
    FirstUploadEnds();
    SecondUploadEnds();
    hide Step, Enabled;
    OneMore(FIRST_OVER, Turn(1, FINE), []);
    OneMore(SECOND_SENT, Turn(0, FINE), [Turn(1, FINE)]);
    OneMore(BORROWED, Turn(0, FINE), [Turn(0, FINE), Turn(1, FINE)]);
    OneMore(FIRST_SENT, Turn(0, FINE), [Turn(0, FINE), Turn(0, FINE), Turn(1, FINE)]);
    OneMore(OVERLAPPING, Turn(0, FINE), [Turn(0, FINE), Turn(0, FINE), Turn(0, FINE), Turn(1, FINE)]);
    var second := BOTH_OVER.runs[1];
    assert !OutcomeFits(second.log, second.cancelled, 1, second.outcomes[1]);
  }
}
