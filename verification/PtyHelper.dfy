/**
 `pty-helper.py`, the process between the terminal service and a shell: it prints what the shell writes, and carries out
 commands that it reads, one per line, from its standard input.

 A run is driven by rounds, one for each `select` with the reads and the `waitpid` that follow it. Any list of rounds is
 a possible environment, and a run whose rounds are used up waits in `select`.
 */
module PtyHelper {
  import opened Wrappers

  type Byte = bv8
  type Bytes = seq<Byte>

  const NEWLINE: Byte := 10

  datatype Action = Input(data: Bytes) | Resize(cols: int, rows: int) | Signal(number: int)

  /**
   What the language and the system decide: the command that a line stands for, None when it is refused as no JSON, no
   base64 or no known command; whether carrying out the command with a given number raises; and whether hanging up does.
   */
  datatype Platform = Platform(Decode: Bytes -> Option<Action>, Fails: nat -> bool, hangupFails: bool)

  /** `stdin_buffer`, with the lines cut from it so far and the commands carried out. */
  datatype Feed = Feed(buffer: Bytes, lines: seq<Bytes>, actions: seq<Action>, failed: bool)

  function Unread(input: Bytes): Feed {
    Feed(input, [], [], false)
  }

  /** The index of the first newline, or the length when there is none. */
  function NewlineAt(buffer: Bytes): (i: nat)
    ensures i <= |buffer|
    ensures i < |buffer| ==> buffer[i] == NEWLINE
    ensures NEWLINE !in buffer[..i]
  {
    if buffer == [] || buffer[0] == NEWLINE then 0
    else
      var rest := NewlineAt(buffer[1..]);
      assert buffer[..rest + 1] == [buffer[0]] + buffer[1..][..rest];
      rest + 1
  }

  lemma {:induction false} NewlineAtIs(buffer: Bytes, i: nat)
    requires i < |buffer| && buffer[i] == NEWLINE && NEWLINE !in buffer[..i]
    ensures NewlineAt(buffer) == i
  {
    if i > 0 {
      assert buffer[..i][0] == buffer[0] && buffer[1..][..i - 1] == buffer[..i][1..];
      NewlineAtIs(buffer[1..], i - 1);
    }
  }

  function CarryOut(p: Platform, f: Feed, line: Bytes): Feed {
    var read := f.(lines := f.lines + [line]);
    match p.Decode(line)
    case None => read.(failed := true)
    case Some(action) =>
      if p.Fails(|f.actions|) then read.(failed := true) else read.(actions := f.actions + [action])
  }

  /** Cuts off lines and carries them out until no newline is left or an exception is raised. */
  function Drain(p: Platform, f: Feed): Feed
    decreases |f.buffer|
  {
    var i := NewlineAt(f.buffer);
    if f.failed || i == |f.buffer| then f
    else Drain(p, CarryOut(p, f.(buffer := f.buffer[i + 1..]), f.buffer[..i]))
  }

  datatype ExitStatus = Code(code: int) | KilledBy(number: int)

  datatype Record = Output(data: Bytes) | Exit(status: ExitStatus) | Failure

  /** An empty read of the master stands for its end, also when it comes as an error; None is a read that raises. */
  datatype Round = Round(masterReady: bool, masterRead: Bytes, stdinReady: bool, stdinRead: Option<Bytes>,
                         finished: Option<ExitStatus>)

  datatype Progress = Running | Returned | Raised

  /** `reaped` are the statuses collected by `waitpid`. */
  datatype Helper = Helper(feed: Feed, stdinOpen: bool, records: seq<Record>, reaped: seq<ExitStatus>,
      progress: Progress)

  const START := Helper(Unread([]), true, [], [], Running)

  function Raise(s: Helper): Helper {
    s.(records := s.records + [Failure], progress := Raised)
  }

  function End(s: Helper, status: ExitStatus): Helper {
    s.(records := s.records + [Exit(status)], reaped := s.reaped + [status], progress := Returned)
  }

  function TakeInput(p: Platform, s: Helper, read: Option<Bytes>): Helper {
    match read
    case None => Raise(s)
    case Some(data) =>
      if data == [] then
        var closed := s.(stdinOpen := false);
        if p.hangupFails then Raise(closed) else closed
      else
        var fed := s.(feed := Drain(p, s.feed.(buffer := s.feed.buffer + data)));
        if fed.feed.failed then Raise(fed) else fed
  }

  /** One round; `last` is the status that a blocking `waitpid` would return. */
  function Step(p: Platform, s: Helper, round: Round, last: ExitStatus): Helper {
    if s.progress != Running then s
    else if round.masterReady && round.masterRead == [] then End(s, last)
    else
      var printed := if round.masterReady then s.(records := s.records + [Output(round.masterRead)]) else s;
      var fed := if s.stdinOpen && round.stdinReady then TakeInput(p, printed, round.stdinRead) else printed;
      if fed.progress == Running && round.finished.Some? then End(fed, round.finished.value) else fed
  }

  function Run(p: Platform, s: Helper, rounds: seq<Round>, last: ExitStatus): Helper
    decreases |rounds|
  {
    if rounds == [] then s else Run(p, Step(p, s, rounds[0], last), rounds[1..], last)
  }

  lemma {:induction false} EndedRunStays(p: Platform, s: Helper, rounds: seq<Round>, last: ExitStatus)
    requires s.progress != Running
    ensures Run(p, s, rounds, last) == s
    decreases |rounds|
  {
    if rounds != [] { EndedRunStays(p, s, rounds[1..], last); }
  }

  /** The inner loop of main, with its exception. */
  method DispatchLines(p: Platform, fed: Feed) returns (f: Feed)
    requires !fed.failed
    ensures f == Drain(p, fed)
  {
    var buffer, lines, actions := fed.buffer, fed.lines, fed.actions;
    while NEWLINE in buffer
      invariant Drain(p, fed) == Drain(p, Feed(buffer, lines, actions, false))
      decreases |buffer|
    {
      var i := NewlineAt(buffer);
      assert i < |buffer|;
      var line := buffer[..i];
      buffer := buffer[i + 1..];
      lines := lines + [line];
      var command := p.Decode(line);
      if command.None? { return Feed(buffer, lines, actions, true); }
      if p.Fails(|actions|) { return Feed(buffer, lines, actions, true); }
      actions := actions + [command.value];
    }
    f := Feed(buffer, lines, actions, false);
    assert NewlineAt(buffer) == |buffer|;
  }

  /** The loop of main and what follows it; the error record is the one printed when main raises. */
  method ServeTerminal(p: Platform, rounds: seq<Round>, last: ExitStatus) returns (s: Helper)
    ensures s == Run(p, START, rounds, last)
  {
    s := START;
    var k := 0;
    assert rounds[0..] == rounds;
    while k < |rounds|
      invariant 0 <= k <= |rounds| && s.progress == Running && !s.feed.failed
      invariant Run(p, START, rounds, last) == Run(p, s, rounds[k..], last)
    {
      var round := rounds[k];
      ghost var before := s;
      assert rounds[k..][1..] == rounds[k + 1..];
      k := k + 1;
      if round.masterReady {
        if round.masterRead == [] {
          s := End(s, last);
          EndedRunStays(p, s, rounds[k..], last);
          return;
        }
        s := s.(records := s.records + [Output(round.masterRead)]);
      }
      if s.stdinOpen && round.stdinReady {
        var raised := round.stdinRead.None?;
        if !raised {
          var data := round.stdinRead.value;
          if data == [] {
            s := s.(stdinOpen := false);
            raised := p.hangupFails;
          } else {
            var feed := DispatchLines(p, s.feed.(buffer := s.feed.buffer + data));
            s := s.(feed := feed);
            raised := feed.failed;
          }
        }
        if raised {
          s := Raise(s);
          EndedRunStays(p, s, rounds[k..], last);
          return;
        }
      }
      if round.finished.Some? {
        s := End(s, round.finished.value);
        EndedRunStays(p, s, rounds[k..], last);
        return;
      }
    }
  }

  /** Every line followed by its newline. */
  function Unlines(lines: seq<Bytes>): Bytes {
    if lines == [] then [] else Unlines(lines[..|lines| - 1]) + lines[|lines| - 1] + [NEWLINE]
  }

  ghost predicate NoNewlines(lines: seq<Bytes>) {
    forall k :: 0 <= k < |lines| ==> NEWLINE !in lines[k]
  }

  /** The commands of the lines, in order, one after the other without a failure. */
  ghost predicate CarriedOut(p: Platform, lines: seq<Bytes>, actions: seq<Action>) {
    |actions| <= |lines| && forall k :: 0 <= k < |actions| ==> p.Decode(lines[k]) == Some(actions[k]) && !p.Fails(k)
  }

  /**
   The input is cut at its newlines, nothing is lost, and the commands carried out are those of the lines in order: of
   all of them, with no newline left over, or of all before the first that raises.
   */
  ghost predicate FramedAndCarriedOut(p: Platform, input: Bytes, f: Feed) {
    && input == Unlines(f.lines) + f.buffer && NoNewlines(f.lines) && CarriedOut(p, f.lines, f.actions)
    && (!f.failed ==> |f.actions| == |f.lines|)
    && (f.failed ==> |f.actions| + 1 == |f.lines| && (p.Decode(f.lines[|f.actions|]) == None || p.Fails(|f.actions|)))
  }

  lemma CarryOutFits(p: Platform, input: Bytes, f: Feed, i: nat)
    requires FramedAndCarriedOut(p, input, f) && !f.failed && i == NewlineAt(f.buffer) < |f.buffer|
    ensures FramedAndCarriedOut(p, input, CarryOut(p, f.(buffer := f.buffer[i + 1..]), f.buffer[..i]))
  {
    var line, rest := f.buffer[..i], f.buffer[i + 1..];
    var longer := f.lines + [line];
    assert longer[..|f.lines|] == f.lines;
    assert f.buffer == line + [NEWLINE] + rest;
    assert input == Unlines(longer) + rest;
  }

  lemma {:induction false} DrainFits(p: Platform, input: Bytes, f: Feed)
    requires FramedAndCarriedOut(p, input, f)
    ensures FramedAndCarriedOut(p, input, Drain(p, f))
    ensures !Drain(p, f).failed ==> NEWLINE !in Drain(p, f).buffer
    decreases |f.buffer|
  {
    hide FramedAndCarriedOut;
    var i := NewlineAt(f.buffer);
    assert i == |f.buffer| ==> f.buffer[..i] == f.buffer;
    if !f.failed && i < |f.buffer| {
      CarryOutFits(p, input, f, i);
      DrainFits(p, input, CarryOut(p, f.(buffer := f.buffer[i + 1..]), f.buffer[..i]));
    }
  }

  /** What one pass over a whole input does. */
  lemma DrainMeaning(p: Platform, input: Bytes)
    ensures FramedAndCarriedOut(p, input, Drain(p, Unread(input)))
    ensures !Drain(p, Unread(input)).failed ==> NEWLINE !in Drain(p, Unread(input)).buffer
  {
    assert Unlines([]) + input == input;
    DrainFits(p, input, Unread(input));
  }

  /** Carrying out a line neither reads nor changes the rest of the buffer. */
  lemma CarryOutKeepsBuffer(p: Platform, f: Feed, line: Bytes, buffer: Bytes)
    ensures CarryOut(p, f.(buffer := buffer), line) == CarryOut(p, f, line).(buffer := buffer)
  {
  }

  lemma NewlineOfLongerBuffer(buffer: Bytes, more: Bytes)
    requires NewlineAt(buffer) < |buffer|
    ensures var i := NewlineAt(buffer);
            && NewlineAt(buffer + more) == i
            && (buffer + more)[..i] == buffer[..i] && (buffer + more)[i + 1..] == buffer[i + 1..] + more
  {
    var i := NewlineAt(buffer);
    hide NewlineAt;
    assert (buffer + more)[..i] == buffer[..i];
    NewlineAtIs(buffer + more, i);
  }

  /** The feed after the first line has been cut off and carried out. */
  function AfterLine(p: Platform, f: Feed): Feed {
    var i := NewlineAt(f.buffer);
    if i == |f.buffer| then f else CarryOut(p, f.(buffer := f.buffer[i + 1..]), f.buffer[..i])
  }

  lemma DrainOnce(p: Platform, f: Feed)
    ensures f.failed ==> Drain(p, f) == f
    ensures Drain(p, f) == if f.failed || NewlineAt(f.buffer) == |f.buffer| then f else Drain(p, AfterLine(p, f))
  {
  }

  lemma AfterLineKeepsMore(p: Platform, f: Feed, more: Bytes)
    requires NewlineAt(f.buffer) < |f.buffer|
    ensures NewlineAt(f.buffer + more) < |f.buffer + more|
    ensures var next := AfterLine(p, f);
            && |next.buffer| < |f.buffer|
            && AfterLine(p, f.(buffer := f.buffer + more)) == next.(buffer := next.buffer + more)
  {
    var i := NewlineAt(f.buffer);
    NewlineOfLongerBuffer(f.buffer, more);
    CarryOutKeepsBuffer(p, f, f.buffer[..i], f.buffer[i + 1..]);
    CarryOutKeepsBuffer(p, f, f.buffer[..i], f.buffer[i + 1..] + more);
    hide NewlineAt, CarryOut;
  }

  /** Draining in two portions is draining the whole. */
  lemma {:induction false} DrainInPortions(p: Platform, f: Feed, more: Bytes)
    ensures var first := Drain(p, f);
            Drain(p, f.(buffer := f.buffer + more))
            == if first.failed then first.(buffer := first.buffer + more)
               else Drain(p, first.(buffer := first.buffer + more))
    decreases |f.buffer|
  {
    hide Drain, NewlineAt, AfterLine;
    DrainOnce(p, f);
    DrainOnce(p, f.(buffer := f.buffer + more));
    if !f.failed && NewlineAt(f.buffer) < |f.buffer| {
      AfterLineKeepsMore(p, f, more);
      DrainInPortions(p, AfterLine(p, f), more);
    }
  }

  /** What a round reads from standard input. */
  function Consumed(s: Helper, round: Round): Bytes {
    if s.progress == Running && !(round.masterReady && round.masterRead == []) && s.stdinOpen && round.stdinReady
    then round.stdinRead.GetOr([]) else []
  }

  function ConsumedInRun(p: Platform, s: Helper, rounds: seq<Round>, last: ExitStatus): Bytes
    decreases |rounds|
  {
    if rounds == [] then []
    else Consumed(s, rounds[0]) + ConsumedInRun(p, Step(p, s, rounds[0], last), rounds[1..], last)
  }

  /** The helper is where one pass over `input` would have led it. */
  ghost predicate HasRead(p: Platform, s: Helper, input: Bytes) {
    s.feed == Drain(p, Unread(input)) && (s.feed.failed ==> s.progress == Raised)
  }

  lemma TakenInputIsRead(p: Platform, s: Helper, read: Option<Bytes>, input: Bytes)
    requires HasRead(p, s, input) && s.progress == Running
    ensures HasRead(p, TakeInput(p, s, read), input + read.GetOr([]))
  {
    assert input + [] == input;
    DrainInPortions(p, Unread(input), read.GetOr([]));
    hide Drain;
  }

  lemma StepReads(p: Platform, s: Helper, round: Round, last: ExitStatus, input: Bytes)
    requires HasRead(p, s, input)
    ensures HasRead(p, Step(p, s, round, last), input + Consumed(s, round))
  {
    hide Drain, TakeInput;
    assert input + [] == input;
    if s.progress == Running {
      TakenInputIsRead(p, s, round.stdinRead, input);
      TakenInputIsRead(p, s.(records := s.records + [Output(round.masterRead)]), round.stdinRead, input);
    }
  }

  lemma {:induction false} RunReads(p: Platform, s: Helper, rounds: seq<Round>, last: ExitStatus, input: Bytes)
    requires HasRead(p, s, input)
    ensures HasRead(p, Run(p, s, rounds, last), input + ConsumedInRun(p, s, rounds, last))
    decreases |rounds|
  {
    hide HasRead, Step, Consumed;
    if rounds == [] {
      assert input + [] == input;
    } else {
      var data, next := Consumed(s, rounds[0]), Step(p, s, rounds[0], last);
      StepReads(p, s, rounds[0], last, input);
      RunReads(p, next, rounds[1..], last, input + data);
      assert input + (data + ConsumedInRun(p, next, rounds[1..], last))
          == input + data + ConsumedInRun(p, next, rounds[1..], last);
    }
  }

  /**
   For every run: what was read from standard input is the lines cut off, each with its newline, and the buffer; the
   commands carried out are those of the lines in order, of all of them unless one of them raised, which then was the
   last.
   */
  lemma RunFramesItsInput(p: Platform, rounds: seq<Round>, last: ExitStatus)
    ensures var end := Run(p, START, rounds, last);
            && FramedAndCarriedOut(p, ConsumedInRun(p, START, rounds, last), end.feed)
            && (end.feed.failed ==> end.progress == Raised)
            && (!end.feed.failed ==> NEWLINE !in end.feed.buffer)
  {
    hide FramedAndCarriedOut, Drain;
    var input := ConsumedInRun(p, START, rounds, last);
    NothingDrained(p);
    RunReads(p, START, rounds, last, []);
    assert [] + input == input;
    DrainMeaning(p, input);
    OneEnding(p, START, rounds, last);
  }

  lemma NothingDrained(p: Platform)
    ensures Drain(p, Unread([])) == Unread([])
  {
  }

  /**
   Framing does not depend on how the input is cut into reads: equal inputs give equal lines, commands and buffers.
   */
  lemma ChunkingDoesNotMatter(p: Platform, rounds: seq<Round>, last: ExitStatus, others: seq<Round>,
      otherLast: ExitStatus)
    requires ConsumedInRun(p, START, rounds, last) == ConsumedInRun(p, START, others, otherLast)
    ensures Run(p, START, rounds, last).feed == Run(p, START, others, otherLast).feed
  {
    NothingDrained(p);
    RunReads(p, START, rounds, last, []);
    RunReads(p, START, others, otherLast, []);
  }

  lemma NewlinesOf(lines: seq<Bytes>, rest: Bytes)
    requires NEWLINE !in rest
    ensures NEWLINE in Unlines(lines) + rest <==> lines != []
  {
  }

  lemma NewlineBeforeShorterRest(before: Bytes, rest: Bytes, otherBefore: Bytes, otherRest: Bytes)
    requires before + [NEWLINE] + rest == otherBefore + [NEWLINE] + otherRest
    ensures |rest| < |otherRest| ==> NEWLINE in otherRest
  {
    var whole := before + [NEWLINE] + rest;
    assert whole[|before|] == NEWLINE && whole[|otherBefore| + 1..] == otherRest;
    if |rest| < |otherRest| {
      assert otherRest[|before| - |otherBefore| - 1] == NEWLINE;
    }
  }

  /** There is only one way of cutting an input at its newlines. */
  lemma {:induction false} FramingIsUnique(lines: seq<Bytes>, rest: Bytes, others: seq<Bytes>, otherRest: Bytes)
    requires NoNewlines(lines) && NEWLINE !in rest && NoNewlines(others) && NEWLINE !in otherRest
    requires Unlines(lines) + rest == Unlines(others) + otherRest
    ensures lines == others && rest == otherRest
    decreases |lines|
  {
    NewlinesOf(lines, rest);
    NewlinesOf(others, otherRest);
    if lines == [] {
      assert Unlines(lines) + rest == rest && Unlines(others) + otherRest == otherRest;
    } else {
      var whole := Unlines(lines) + rest;
      var init, final := lines[..|lines| - 1], lines[|lines| - 1];
      var otherInit, otherFinal := others[..|others| - 1], others[|others| - 1];
      var before, otherBefore := Unlines(init) + final, Unlines(otherInit) + otherFinal;
      assert whole == before + [NEWLINE] + rest && whole == otherBefore + [NEWLINE] + otherRest;
      NewlineBeforeShorterRest(before, rest, otherBefore, otherRest);
      NewlineBeforeShorterRest(otherBefore, otherRest, before, rest);
      assert rest == whole[|before| + 1..] == otherRest;
      assert before == whole[..|before|] == otherBefore;
      FramingIsUnique(init, final, otherInit, otherFinal);
      assert lines == init + [final] && others == otherInit + [otherFinal];
    }
  }

  ghost predicate OnlyOutput(records: seq<Record>) {
    forall k :: 0 <= k < |records| ==> records[k].Output?
  }

  /** How the records end: with the exit record of the one status collected, with one error record, or not yet. */
  ghost predicate EndsOnce(s: Helper) {
    match s.progress
    case Running => OnlyOutput(s.records) && s.reaped == []
    case Returned =>
      s.records != [] && OnlyOutput(s.records[..|s.records| - 1]) && |s.reaped| == 1
      && s.records[|s.records| - 1] == Exit(s.reaped[0])
    case Raised =>
      s.records != [] && OnlyOutput(s.records[..|s.records| - 1]) && s.reaped == []
          && s.records[|s.records| - 1] == Failure
  }

  /** What a round reads from the shell and prints. */
  function Relayed(s: Helper, round: Round): Bytes {
    if s.progress == Running && round.masterReady then round.masterRead else []
  }

  function RelayedInRun(p: Platform, s: Helper, rounds: seq<Round>, last: ExitStatus): Bytes
    decreases |rounds|
  {
    if rounds == [] then [] else Relayed(s, rounds[0]) + RelayedInRun(p, Step(p, s, rounds[0], last), rounds[1..], last)
  }

  /** The shell output that the records carry. */
  function Printed(records: seq<Record>): Bytes {
    if records == [] then []
    else
      var last := records[|records| - 1];
      Printed(records[..|records| - 1]) + if last.Output? then last.data else []
  }

  lemma PrintedAppend(records: seq<Record>, record: Record)
    ensures Printed(records + [record]) == Printed(records) + if record.Output? then record.data else []
  {
    assert (records + [record])[..|records|] == records;
  }

  lemma RecordAppend(records: seq<Record>, record: Record)
    requires OnlyOutput(records)
    ensures (records + [record])[..|records|] == records
    ensures record.Output? ==> OnlyOutput(records + [record])
  {
  }

  lemma EndingEndsOnce(s: Helper, status: ExitStatus)
    requires EndsOnce(s) && s.progress == Running
    ensures EndsOnce(End(s, status)) && Printed(End(s, status).records) == Printed(s.records)
    ensures EndsOnce(Raise(s)) && Printed(Raise(s).records) == Printed(s.records)
  {
    RecordAppend(s.records, Exit(status));
    RecordAppend(s.records, Failure);
    hide OnlyOutput;
    assert s.reaped == [];
  }

  lemma PrintingEndsOnce(s: Helper, data: Bytes)
    requires EndsOnce(s) && s.progress == Running
    ensures var printed := s.(records := s.records + [Output(data)]);
            EndsOnce(printed) && Printed(printed.records) == Printed(s.records) + data
  {
    RecordAppend(s.records, Output(data));
    PrintedAppend(s.records, Output(data));
  }

  lemma TakenInputEndsOnce(p: Platform, s: Helper, read: Option<Bytes>)
    requires EndsOnce(s) && s.progress == Running
    ensures EndsOnce(TakeInput(p, s, read)) && Printed(TakeInput(p, s, read).records) == Printed(s.records)
    ensures TakeInput(p, s, read).progress != Returned
  {
    hide Drain, Printed, OnlyOutput, End;
    assert EndsOnce(s.(stdinOpen := false));
    EndingEndsOnce(s, Code(0));
    EndingEndsOnce(s.(stdinOpen := false), Code(0));
  }

  lemma StepEndsOnce(p: Platform, s: Helper, round: Round, last: ExitStatus)
    requires EndsOnce(s)
    ensures EndsOnce(Step(p, s, round, last))
    ensures Printed(Step(p, s, round, last).records) == Printed(s.records) + Relayed(s, round)
  {
    hide Drain, Printed, OnlyOutput, End, EndsOnce, TakeInput;
    assert Printed(s.records) + [] == Printed(s.records);
    if s.progress == Running {
      if round.masterReady && round.masterRead == [] {
        EndingEndsOnce(s, last);
      } else {
        PrintingEndsOnce(s, round.masterRead);
        var printed := if round.masterReady then s.(records := s.records + [Output(round.masterRead)]) else s;
        TakenInputEndsOnce(p, printed, round.stdinRead);
        var fed := if s.stdinOpen && round.stdinReady then TakeInput(p, printed, round.stdinRead) else printed;
        if fed.progress == Running && round.finished.Some? { EndingEndsOnce(fed, round.finished.value); }
      }
    }
  }

  lemma {:induction false} OneEnding(p: Platform, s: Helper, rounds: seq<Round>, last: ExitStatus)
    requires EndsOnce(s)
    ensures EndsOnce(Run(p, s, rounds, last))
    ensures Printed(Run(p, s, rounds, last).records) == Printed(s.records) + RelayedInRun(p, s, rounds, last)
    decreases |rounds|
  {
    hide EndsOnce, Step, Printed, Relayed;
    if rounds != [] {
      StepEndsOnce(p, s, rounds[0], last);
      OneEnding(p, Step(p, s, rounds[0], last), rounds[1..], last);
    }
  }

  /**
   For every run: the shell's output is printed completely and in order; a run that returns has collected one status and
   has printed it in one exit record, its last; a run that raises ends with one error record and no exit record.
   */
  lemma ExitProtocol(p: Platform, rounds: seq<Round>, last: ExitStatus)
    ensures var end := Run(p, START, rounds, last);
            EndsOnce(end) && Printed(end.records) == RelayedInRun(p, START, rounds, last)
  {
    OneEnding(p, START, rounds, last);
    assert [] + RelayedInRun(p, START, rounds, last) == RelayedInRun(p, START, rounds, last);
  }

  /** Standard input has not reported its end in these rounds. */
  ghost predicate StdinOpen(rounds: seq<Round>) {
    forall k :: 0 <= k < |rounds| ==> !(rounds[k].stdinReady && rounds[k].stdinRead == Some([]))
  }

  /** What standard input hands over in these rounds, up to its end. */
  ghost function InputOf(rounds: seq<Round>): Bytes {
    if rounds == [] then []
    else
      var before, round := rounds[..|rounds| - 1], rounds[|rounds| - 1];
      InputOf(before) + if StdinOpen(before) && round.stdinReady then round.stdinRead.GetOr([]) else []
  }

  /** What the shell prints in these rounds, one record for each read. */
  function OutputOf(rounds: seq<Round>): seq<Record> {
    if rounds == [] then []
    else
      var before, round := rounds[..|rounds| - 1], rounds[|rounds| - 1];
      OutputOf(before) + if round.masterReady && round.masterRead != [] then [Output(round.masterRead)] else []
  }

  datatype Ending = GoesOn | Exits(status: ExitStatus) | Fails

  /** Round `k` raises: its read of standard input does, or hanging up, or a line that is complete by then. */
  ghost predicate RaisesAt(p: Platform, rounds: seq<Round>, k: nat)
    requires k < |rounds|
  {
    && StdinOpen(rounds[..k]) && rounds[k].stdinReady
    && match rounds[k].stdinRead
       case None => true
       case Some(data) => if data == [] then p.hangupFails else Drain(p, Unread(InputOf(rounds[..k + 1]))).failed
  }

  /** How round `k` ends a run that has come so far: the end of the master first, then an exception, then the child. */
  ghost function EndingAt(p: Platform, rounds: seq<Round>, k: nat, last: ExitStatus): Ending
    requires k < |rounds|
  {
    if rounds[k].masterReady && rounds[k].masterRead == [] then Exits(last)
    else if RaisesAt(p, rounds, k) then Fails
    else if rounds[k].finished.Some? then Exits(rounds[k].finished.value)
    else GoesOn
  }

  ghost predicate ComesTo(p: Platform, rounds: seq<Round>, k: nat, last: ExitStatus)
    requires k <= |rounds|
  {
    forall j :: 0 <= j < k ==> EndingAt(p, rounds, j, last) == GoesOn
  }

  /** A helper that none of these rounds has ended. */
  ghost function StateAfter(p: Platform, rounds: seq<Round>): Helper {
    Helper(Drain(p, Unread(InputOf(rounds))), StdinOpen(rounds), OutputOf(rounds), [], Running)
  }

  lemma {:induction false} RunInParts(p: Platform, s: Helper, rounds: seq<Round>, more: seq<Round>, last: ExitStatus)
    ensures Run(p, s, rounds + more, last) == Run(p, Run(p, s, rounds, last), more, last)
    decreases |rounds|
  {
    hide Step;
    if rounds == [] {
      assert rounds + more == more;
    } else {
      assert (rounds + more)[1..] == rounds[1..] + more;
      RunInParts(p, Step(p, s, rounds[0], last), rounds[1..], more, last);
    }
  }

  lemma RunOneMore(p: Platform, rounds: seq<Round>, k: nat, last: ExitStatus)
    requires k < |rounds|
    ensures Run(p, START, rounds[..k + 1], last) == Step(p, Run(p, START, rounds[..k], last), rounds[k], last)
  {
    hide Step;
    RunInParts(p, START, rounds[..k], [rounds[k]], last);
    assert rounds[..k] + [rounds[k]] == rounds[..k + 1];
    assert [rounds[k]][1..] == [];
    assert forall s :: Run(p, s, [], last) == s;
  }

  lemma PrefixOneMore(rounds: seq<Round>, k: nat)
    requires k < |rounds|
    ensures InputOf(rounds[..k + 1]) == InputOf(rounds[..k])
        + if StdinOpen(rounds[..k]) && rounds[k].stdinReady then rounds[k].stdinRead.GetOr([]) else []
    ensures OutputOf(rounds[..k + 1]) == OutputOf(rounds[..k])
        + if rounds[k].masterReady && rounds[k].masterRead != [] then [Output(rounds[k].masterRead)] else []
    ensures StdinOpen(rounds[..k + 1])
        <==> StdinOpen(rounds[..k]) && !(rounds[k].stdinReady && rounds[k].stdinRead == Some([]))
  {
    assert rounds[..k + 1][..k] == rounds[..k];
  }

  /** How one round leaves a helper that none before it has ended. */
  ghost predicate EndsAs(p: Platform, rounds: seq<Round>, k: nat, last: ExitStatus, end: Helper)
    requires k < |rounds|
  {
    match EndingAt(p, rounds, k, last)
    case GoesOn => end == StateAfter(p, rounds[..k + 1])
    case Exits(status) =>
      end.progress == Returned && end.reaped == [status] && end.records == OutputOf(rounds[..k + 1]) + [Exit(status)]
    case Fails =>
      end.progress == Raised && end.reaped == [] && end.records == OutputOf(rounds[..k + 1]) + [Failure]
  }

  lemma DrainedOnTop(p: Platform, input: Bytes, data: Bytes)
    requires !Drain(p, Unread(input)).failed
    ensures var f := Drain(p, Unread(input));
            Drain(p, f.(buffer := f.buffer + data)) == Drain(p, Unread(input + data))
  {
    hide Drain;
    DrainInPortions(p, Unread(input), data);
  }

  /** What a round does to standard input, when none before it has ended the helper. */
  lemma TakenInputLeads(p: Platform, s: Helper, read: Option<Bytes>, input: Bytes)
    requires s.feed == Drain(p, Unread(input)) && !s.feed.failed && s.progress == Running
    ensures var t := TakeInput(p, s, read);
            var raises := match read
                          case None => true
                          case Some(data) =>
                            if data == [] then p.hangupFails else Drain(p, Unread(input + data)).failed;
            && (raises ==>
                  && t.progress == Raised && t.records == s.records + [Failure] && t.reaped == s.reaped)
            && (!raises ==>
                  && t.progress == Running && t.records == s.records && t.reaped == s.reaped
                  && t.feed == Drain(p, Unread(input + read.GetOr([])))
                  && (t.stdinOpen <==> s.stdinOpen && read != Some([])))
  {
    hide Drain;
    assert input + [] == input;
    if read.Some? { DrainedOnTop(p, input, read.value); }
  }

  lemma StepEndsAs(p: Platform, rounds: seq<Round>, k: nat, last: ExitStatus)
    requires k < |rounds| && !Drain(p, Unread(InputOf(rounds[..k]))).failed
    ensures EndsAs(p, rounds, k, last, Step(p, StateAfter(p, rounds[..k]), rounds[k], last))
  {
    hide Drain, InputOf, OutputOf, StdinOpen, TakeInput;
    var s, round := StateAfter(p, rounds[..k]), rounds[k];
    var printed := if round.masterReady then s.(records := s.records + [Output(round.masterRead)]) else s;
    PrefixOneMore(rounds, k);
    TakenInputLeads(p, printed, round.stdinRead, InputOf(rounds[..k]));
    assert InputOf(rounds[..k]) + [] == InputOf(rounds[..k]);
    assert OutputOf(rounds[..k]) + [] == OutputOf(rounds[..k]);
  }

  lemma {:induction false} RunComesTo(p: Platform, rounds: seq<Round>, k: nat, last: ExitStatus)
    requires k <= |rounds| && ComesTo(p, rounds, k, last)
    ensures Run(p, START, rounds[..k], last) == StateAfter(p, rounds[..k])
    ensures !Drain(p, Unread(InputOf(rounds[..k]))).failed
  {
    if k == 0 {
      NothingDrained(p);
    } else {
      hide Step, Drain, StateAfter;
      RunComesTo(p, rounds, k - 1, last);
      RunOneMore(p, rounds, k - 1, last);
      StepEndsAs(p, rounds, k - 1, last);
      assert EndingAt(p, rounds, k - 1, last) == GoesOn;
      FeedStaysGood(p, rounds, k - 1);
    }
  }

  lemma FeedStaysGood(p: Platform, rounds: seq<Round>, k: nat)
    requires k < |rounds| && !RaisesAt(p, rounds, k) && !Drain(p, Unread(InputOf(rounds[..k]))).failed
    ensures !Drain(p, Unread(InputOf(rounds[..k + 1]))).failed
  {
    hide Drain, InputOf, StdinOpen;
    PrefixOneMore(rounds, k);
    assert InputOf(rounds[..k]) + [] == InputOf(rounds[..k]);
  }

  /**
   When and how a run ends, told by its rounds alone. As long as no round reports the end of the master, raises or finds
   the child finished, the helper runs on, having printed the shell's output and nothing else. The first round that does
   ends it, and no later round matters: with one exit record, carrying the status of the blocking `waitpid` at the end
   of the master and the one found otherwise, or with one error record when the round raises before.
   */
  lemma RunEndsByItsFirstEnding(p: Platform, rounds: seq<Round>, last: ExitStatus, k: nat)
    requires k <= |rounds| && ComesTo(p, rounds, k, last)
    ensures var end := Run(p, START, rounds, last);
            if k == |rounds| then
              end.progress == Running && end.reaped == [] && end.records == OutputOf(rounds)
            else if EndingAt(p, rounds, k, last) != GoesOn then
              EndsAs(p, rounds, k, last, end)
            else ComesTo(p, rounds, k + 1, last)
  {
    hide Step, Run, Drain, EndingAt, OutputOf, InputOf, RaisesAt;
    RunComesTo(p, rounds, k, last);
    if k == |rounds| {
      assert rounds[..k] == rounds;
    } else if EndingAt(p, rounds, k, last) != GoesOn {
      RunOneMore(p, rounds, k, last);
      StepEndsAs(p, rounds, k, last);
      RunInParts(p, START, rounds[..k + 1], rounds[k + 1..], last);
      assert rounds[..k + 1] + rounds[k + 1..] == rounds;
      EndedRunStays(p, Run(p, START, rounds[..k + 1], last), rounds[k + 1..], last);
    }
  }

  lemma {:induction false} SomeRoundIsFirst(p: Platform, rounds: seq<Round>, last: ExitStatus, from: nat)
      returns (k: nat)
    requires from <= |rounds| && ComesTo(p, rounds, from, last)
    ensures k <= |rounds| && ComesTo(p, rounds, k, last)
    ensures k < |rounds| ==> EndingAt(p, rounds, k, last) != GoesOn
    decreases |rounds| - from
  {
    hide EndingAt;
    if from == |rounds| || EndingAt(p, rounds, from, last) != GoesOn {
      k := from;
    } else {
      k := SomeRoundIsFirst(p, rounds, last, from + 1);
    }
  }

  lemma NothingComesPast(p: Platform, rounds: seq<Round>, last: ExitStatus, first: nat, k: nat)
    requires first <= |rounds| && k <= |rounds| && ComesTo(p, rounds, k, last)
    requires first < |rounds| ==> EndingAt(p, rounds, first, last) != GoesOn
    ensures k <= first
  {
    hide EndingAt;
  }

  /** A run returns with a status exactly when its first ending is an exit with it, and raises exactly at a failure. */
  lemma RunReturnsExactlyWhen(p: Platform, rounds: seq<Round>, last: ExitStatus, status: ExitStatus)
    ensures var end := Run(p, START, rounds, last);
            && (end.progress == Returned && end.reaped == [status]
                <==> exists k :: 0 <= k < |rounds| && ComesTo(p, rounds, k, last)
                                 && EndingAt(p, rounds, k, last) == Exits(status))
            && (end.progress == Raised
                <==> exists k :: 0 <= k < |rounds| && ComesTo(p, rounds, k, last)
                                 && EndingAt(p, rounds, k, last) == Fails)
            && (end.progress == Running <==> ComesTo(p, rounds, |rounds|, last))
  {
    var first := SomeRoundIsFirst(p, rounds, last, 0);
    RunEndsByItsFirstEnding(p, rounds, last, first);
    hide Run, EndingAt, StateAfter;
    forall k | 0 <= k <= |rounds| && ComesTo(p, rounds, k, last) ensures k <= first {
      NothingComesPast(p, rounds, last, first, k);
    }
  }

  /** The bytes of successive writes. */
  function Written(writes: seq<Bytes>): Bytes {
    if writes == [] then [] else Written(writes[..|writes| - 1]) + writes[|writes| - 1]
  }

  lemma WriteMoves(writes: seq<Bytes>, remaining: Bytes, count: nat)
    requires count <= |remaining|
    ensures Written(writes + [remaining[..count]]) + remaining[count..] == Written(writes) + remaining
  {
    assert (writes + [remaining[..count]])[..|writes|] == writes;
    assert remaining == remaining[..count] + remaining[count..];
  }

  /**
   write_all. The k-th `os.write` raises when `kernel(k)` is None, and otherwise takes at least one byte of those
   offered.
   */
  method WriteAll(data: Bytes, kernel: nat -> Option<nat>) returns (writes: seq<Bytes>, raised: bool)
    ensures Written(writes) <= data && [] !in writes
    ensures raised <==> kernel(|writes|).None? && Written(writes) != data
    ensures !raised ==> Written(writes) == data
  {
    writes := [];
    var remaining := data;
    assert Written(writes) + remaining == data;
    hide Written;
    while remaining != []
      invariant data == Written(writes) + remaining && [] !in writes
      decreases |remaining|
    {
      var reply := kernel(|writes|);
      if reply.None? {
        assert |Written(writes)| < |data|;
        return writes, true;
      }
      var count := if reply.value == 0 then 1 else if reply.value < |remaining| then reply.value else |remaining|;
      WriteMoves(writes, remaining, count);
      writes, remaining := writes + [remaining[..count]], remaining[count..];
    }
    raised := false;
  }
}
