/**
 Compaction of the log list: consecutive lines that together form one JSON value are merged into one entry, and stray
 pieces of JSON are dropped. `app.js` and the plugin's `client.js` hold the same function.
 */
module LogCompaction {
  import opened Text
  import opened Wrappers

  /**
   One log entry. `time` is Date.parse of its timestamp, None when that is NaN; `rest` stands for all other fields.
   */
  datatype Entry = Entry(source: Option<string>, stream: Option<string>, level: Option<string>, time: Option<int>,
                         message: Option<string>, rest: string)

  datatype Item = Item(identity: string, value: Entry)

  /** The severity shown for an entry. */
  datatype Level = Debug | Info | Warning | Error

  /**
   The parts of the platform the function calls: JSON.parse followed by JSON.stringify (None when parsing throws),
   the severity rule, and the test for a quoted key followed by a colon.
   */
  datatype Platform = Platform(Restringify: string -> Option<string>, LogLevel: Entry -> Level,
      IsKeyLine: string -> bool)

  const MERGE_WINDOW: int := 2000

  function Message(item: Item): string {
    item.value.message.GetOr("")
  }

  /** The regular expression of isJsonFragment: a lone bracket with an optional comma, or a quoted key. */
  predicate IsJsonFragment(p: Platform, message: string) {
    var value := Trim(message);
    || (value != "" && value[0] in {'{', '}', '[', ']'} && (|value| == 1 || value[1..] == ","))
    || (value != "" && value[0] == '"' && p.IsKeyLine(value))
  }

  predicate IsFragment(p: Platform, item: Item) {
    IsJsonFragment(p, Message(item))
  }

  predicate IsOpening(item: Item) {
    item.value.message.Some? && Trim(item.value.message.value) in {"{", "["}
  }

  /** The negation of the condition that ends the inner loop. */
  predicate Continues(p: Platform, first: Item, next: Item) {
    && next.value.source == first.value.source
    && next.value.stream == first.value.stream
    && p.LogLevel(next.value) == p.LogLevel(first.value)
    && !(next.value.time.Some? && first.value.time.Some?
        && next.value.time.value - first.value.time.value > MERGE_WINDOW)
  }

  function Messages(items: seq<Item>): seq<string> {
    seq(|items|, i requires 0 <= i < |items| => Message(items[i]))
  }

  lemma MessagesAppend(items: seq<Item>, item: Item)
    ensures Messages(items + [item]) == Messages(items) + [Message(item)]
  {
  }

  function Identities(items: seq<Item>): seq<string> {
    seq(|items|, i requires 0 <= i < |items| => items[i].identity)
  }

  function Parsed(p: Platform, items: seq<Item>): Option<string> {
    p.Restringify(Join(Messages(items), "\n"))
  }

  /** The lines from `start` to `end` parse as one JSON value. */
  predicate Parses(p: Platform, items: seq<Item>, start: nat, end: nat)
    requires start <= end < |items|
  {
    Parsed(p, items[start..end + 1]).Some?
  }

  /** The entry that replaces `items`, which start with an opening bracket and parse as a whole. */
  function Merged(p: Platform, items: seq<Item>): Item
    requires items != [] && Parsed(p, items).Some?
  {
    Item(Join(Identities(items), "|"), items[0].value.(message := Parsed(p, items)))
  }

  /** Where the inner loop, started at `end` for the opening entry `index`, finds a JSON value. */
  function MergeEnd(p: Platform, items: seq<Item>, index: nat, end: nat): (found: Option<nat>)
    requires index < end <= |items|
    ensures found.Some? ==> end <= found.value < |items| && Parses(p, items, index, found.value)
    decreases |items| - end
  {
    if end == |items| || !Continues(p, items[index], items[end]) then None
    else if Parses(p, items, index, end) then Some(end)
    else MergeEnd(p, items, index, end + 1)
  }

  /** Only an opening bracket starts the inner loop. */
  function MergeAt(p: Platform, items: seq<Item>, index: nat): (found: Option<nat>)
    requires index < |items|
    ensures found.Some? ==> index < found.value < |items| && Parses(p, items, index, found.value)
  {
    if IsOpening(items[index]) then MergeEnd(p, items, index, index + 1) else None
  }

  /** What one turn of the outer loop pushes, and where the next turn starts. */
  function Pushed(p: Platform, items: seq<Item>, index: nat): seq<Item>
    requires index < |items|
  {
    match MergeAt(p, items, index)
    case Some(end) => [Merged(p, items[index..end + 1])]
    case None => if IsFragment(p, items[index]) then [] else [items[index]]
  }

  function NextIndex(p: Platform, items: seq<Item>, index: nat): (next: nat)
    requires index < |items|
    ensures index < next <= |items|
  {
    match MergeAt(p, items, index)
    case Some(end) => end + 1
    case None => index + 1
  }

  /** The outer loop from `index` on. */
  function CompactFrom(p: Platform, items: seq<Item>, index: nat): seq<Item>
    requires index <= |items|
    decreases |items| - index
  {
    if index == |items| then []
    else Pushed(p, items, index) + CompactFrom(p, items, NextIndex(p, items, index))
  }

  function Compact(p: Platform, items: seq<Item>): seq<Item> {
    CompactFrom(p, items, 0)
  }

  /** The inner loop of compactLogEntries: collects lines until they parse or an entry does not continue the first. */
  method FindMerge(p: Platform, entries: seq<Item>, index: nat) returns (found: Option<nat>)
    requires index < |entries|
    ensures found == MergeEnd(p, entries, index, index + 1)
  {
    hide Continues, Message, Join;
    var first := entries[index];
    var lines := [Message(first)];
    var end := index + 1;
    while end < |entries|
      invariant index < end <= |entries|
      invariant lines == Messages(entries[index..end])
      invariant MergeEnd(p, entries, index, index + 1) == MergeEnd(p, entries, index, end)
    {
      var next := entries[end];
      if !Continues(p, first, next) { return None; }
      lines := lines + [Message(next)];
      assert entries[index..end + 1] == entries[index..end] + [next];
      MessagesAppend(entries[index..end], next);
      var text := p.Restringify(Join(lines, "\n"));
      if text.Some? { return Some(end); }
      end := end + 1;
    }
    return None;
  }

  /** The outer loop of compactLogEntries. */
  method CompactLogEntries(p: Platform, entries: seq<Item>) returns (compacted: seq<Item>)
    ensures compacted == Compact(p, entries)
  {
    hide IsFragment, IsOpening, Continues, Parsed, Merged, MergeEnd;
    compacted := [];
    var index := 0;
    while index < |entries|
      invariant 0 <= index <= |entries|
      invariant compacted + CompactFrom(p, entries, index) == Compact(p, entries)
    {
      var first := entries[index];
      var next := index + 1;
      ghost var before := compacted;
      if !IsOpening(first) {
        if !IsFragment(p, first) { compacted := compacted + [first]; }
      } else {
        var found := FindMerge(p, entries, index);
        if found.Some? {
          compacted := compacted + [Merged(p, entries[index..found.value + 1])];
          next := found.value + 1;
        } else if !IsFragment(p, first) {
          compacted := compacted + [first];
        }
      }
      assert compacted == before + Pushed(p, entries, index) && next == NextIndex(p, entries, index);
      ConcatIsAssociative(before, Pushed(p, entries, index), CompactFrom(p, entries, next));
      index := next;
    }
  }

  /** An interval of input indices, both ends included. */
  datatype Span = Span(start: nat, end: nat)

  ghost predicate Disjoint(spans: seq<Span>) {
    && (forall k :: 0 <= k < |spans| ==> spans[k].start <= spans[k].end)
    && (forall k, l :: 0 <= k < l < |spans| ==> spans[k].end < spans[l].start)
  }

  /** An opening bracket and the shortest run of matching entries after it that parses together with it. */
  ghost predicate IsMerge(p: Platform, items: seq<Item>, span: Span) {
    && span.start < span.end < |items|
    && IsOpening(items[span.start])
    && (forall m :: span.start < m <= span.end ==> Continues(p, items[span.start], items[m]))
    && Parses(p, items, span.start, span.end)
    && (forall m :: span.start < m < span.end ==> !Parses(p, items, span.start, m))
  }

  ghost predicate IsKept(p: Platform, items: seq<Item>, span: Span) {
    span.start == span.end < |items| && !IsOpening(items[span.start]) && !IsFragment(p, items[span.start])
  }

  ghost predicate IsDropped(p: Platform, items: seq<Item>, index: nat) {
    index < |items| && IsFragment(p, items[index]) && forall end: nat :: !IsMerge(p, items, Span(index, end))
  }

  ghost predicate Covered(spans: seq<Span>, index: int) {
    exists k :: 0 <= k < |spans| && spans[k].start <= index <= spans[k].end
  }

  /** The declarative reading of the indices from `from` on. */
  ghost predicate IsReadingFrom(p: Platform, items: seq<Item>, from: nat, spans: seq<Span>) {
    && Disjoint(spans)
    && (forall k :: 0 <= k < |spans| ==>
        from <= spans[k].start && (IsKept(p, items, spans[k]) || IsMerge(p, items, spans[k])))
    && (forall i :: from <= i < |items| && !Covered(spans, i) ==> IsDropped(p, items, i))
  }

  ghost predicate IsReading(p: Platform, items: seq<Item>, spans: seq<Span>) {
    IsReadingFrom(p, items, 0, spans)
  }

  function RenderSpan(p: Platform, items: seq<Item>, span: Span): Item
    requires IsKept(p, items, span) || IsMerge(p, items, span)
  {
    if span.start == span.end then items[span.start] else Merged(p, items[span.start..span.end + 1])
  }

  ghost function Render(p: Platform, items: seq<Item>, spans: seq<Span>): seq<Item>
    requires forall k :: 0 <= k < |spans| ==> IsKept(p, items, spans[k]) || IsMerge(p, items, spans[k])
  {
    seq(|spans|, k requires 0 <= k < |spans| => RenderSpan(p, items, spans[k]))
  }

  /** What the inner loop finds is a merge... */
  lemma {:induction false} FoundIsMerge(p: Platform, items: seq<Item>, index: nat, end: nat)
    requires index < end <= |items| && IsOpening(items[index])
    requires forall m :: index < m < end ==> Continues(p, items[index], items[m])
    requires forall m :: index < m < end ==> !Parses(p, items, index, m)
    ensures var found := MergeEnd(p, items, index, end); found.Some? ==> IsMerge(p, items, Span(index, found.value))
    decreases |items| - end
  {
    hide Continues, Parses, IsOpening;
    if end < |items| && Continues(p, items[index], items[end]) && !Parses(p, items, index, end) {
      FoundIsMerge(p, items, index, end + 1);
    }
  }

  /** ... and a merge is found, by its first parsing end. */
  lemma {:induction false} MergeIsFound(p: Platform, items: seq<Item>, index: nat, end: nat, e: nat)
    requires IsMerge(p, items, Span(index, e)) && index < end <= e
    ensures MergeEnd(p, items, index, end) == Some(e)
    decreases e - end
  {
    hide Continues, Parses, IsOpening;
    assert Continues(p, items[index], items[end]);
    if end < e {
      assert !Parses(p, items, index, end);
      MergeIsFound(p, items, index, end + 1, e);
    }
  }

  /** The inner loop finds exactly the merges of the declarative reading. */
  lemma MergeEndIsMerge(p: Platform, items: seq<Item>, index: nat)
    requires index < |items| && IsOpening(items[index])
    ensures forall e: nat :: IsMerge(p, items, Span(index, e)) <==> MergeEnd(p, items, index, index + 1) == Some(e)
  {
    FoundIsMerge(p, items, index, index + 1);
    hide IsMerge, MergeEnd;
    forall e: nat | IsMerge(p, items, Span(index, e)) ensures MergeEnd(p, items, index, index + 1) == Some(e) {
      MergeIsLonger(p, items, Span(index, e));
      MergeIsFound(p, items, index, index + 1, e);
    }
  }

  lemma MergeIsLonger(p: Platform, items: seq<Item>, span: Span)
    requires IsMerge(p, items, span)
    ensures span.start < span.end < |items|
  {
  }

  /** An opening bracket alone is always a fragment, so the last push of the source is never taken for it. */
  lemma OpeningIsFragment(p: Platform, item: Item)
    requires IsOpening(item)
    ensures IsFragment(p, item)
  {
    var value := Trim(Message(item));
    assert value == "{" || value == "[";
  }

  ghost function SpanAt(p: Platform, items: seq<Item>, index: nat): seq<Span>
    requires index < |items|
  {
    match MergeAt(p, items, index)
    case Some(end) => [Span(index, end)]
    case None => if IsFragment(p, items[index]) then [] else [Span(index, index)]
  }

  ghost function SpansFrom(p: Platform, items: seq<Item>, index: nat): seq<Span>
    requires index <= |items|
    decreases |items| - index
  {
    if index == |items| then []
    else SpanAt(p, items, index) + SpansFrom(p, items, NextIndex(p, items, index))
  }

  lemma PrependSpan(p: Platform, items: seq<Item>, span: Span, spans: seq<Span>)
    requires IsReadingFrom(p, items, span.end + 1, spans)
    requires IsKept(p, items, span) || IsMerge(p, items, span)
    ensures IsReadingFrom(p, items, span.start, [span] + spans)
    ensures Render(p, items, [span] + spans) == [RenderSpan(p, items, span)] + Render(p, items, spans)
  {
    hide IsFragment, IsOpening, Continues, Parsed, IsDropped;
    var all := [span] + spans;
    assert all[0] == span && all[1..] == spans;
    forall i | span.start <= i < |items| && !Covered(all, i) ensures IsDropped(p, items, i) {
      assert forall k :: 0 <= k < |spans| ==> all[k + 1] == spans[k];
      assert !Covered(spans, i);
    }
  }

  lemma EmptyReading(p: Platform, items: seq<Item>)
    ensures IsReadingFrom(p, items, |items|, [])
  {
  }

  /** One turn of the outer loop treats its entry as the declarative reading asks. */
  lemma TurnMeaning(p: Platform, items: seq<Item>, index: nat)
    requires index < |items|
    ensures if SpanAt(p, items, index) == [] then IsDropped(p, items, index) && NextIndex(p, items, index) == index + 1
            else
              var span := SpanAt(p, items, index)[0];
              && span.start == index && span.end + 1 == NextIndex(p, items, index)
              && (IsKept(p, items, span) || IsMerge(p, items, span))
              && Pushed(p, items, index) == [RenderSpan(p, items, span)]
    ensures SpanAt(p, items, index) == [] ==> Pushed(p, items, index) == []
    ensures |SpanAt(p, items, index)| <= 1
  {
    hide IsFragment, IsOpening, Continues, Parsed, Merged;
    if IsOpening(items[index]) {
      MergeEndIsMerge(p, items, index);
      OpeningIsFragment(p, items[index]);
    }
    assert MergeAt(p, items, index).Some? ==> IsMerge(p, items, Span(index, MergeAt(p, items, index).value));
  }

  lemma SkipIndex(p: Platform, items: seq<Item>, index: nat, spans: seq<Span>)
    requires IsReadingFrom(p, items, index + 1, spans) && IsDropped(p, items, index)
    ensures IsReadingFrom(p, items, index, spans)
  {
  }

  lemma ReadingStep(p: Platform, items: seq<Item>, index: nat, spans: seq<Span>)
    requires index < |items| && IsReadingFrom(p, items, NextIndex(p, items, index), spans)
    ensures IsReadingFrom(p, items, index, SpanAt(p, items, index) + spans)
    ensures Render(p, items, SpanAt(p, items, index) + spans) == Pushed(p, items, index) + Render(p, items, spans)
  {
    hide IsFragment, IsOpening, Continues, Parsed, MergeAt, SpanAt, Pushed, NextIndex, RenderSpan, IsReadingFrom,
        IsDropped, IsKept, IsMerge;
    TurnMeaning(p, items, index);
    var turn := SpanAt(p, items, index);
    if turn == [] {
      SkipIndex(p, items, index, spans);
      assert turn + spans == spans;
      assert [] + Render(p, items, spans) == Render(p, items, spans);
    } else {
      assert turn == [turn[0]];
      PrependSpan(p, items, turn[0], spans);
    }
  }

  /** Compaction has a declarative reading, and its output is that reading rendered. */
  lemma {:induction false} CompactionHasReading(p: Platform, items: seq<Item>, index: nat)
    requires index <= |items|
    ensures IsReadingFrom(p, items, index, SpansFrom(p, items, index))
    ensures CompactFrom(p, items, index) == Render(p, items, SpansFrom(p, items, index))
    decreases |items| - index
  {
    if index == |items| {
      EmptyReading(p, items);
    } else {
      hide IsReadingFrom, IsDropped, IsKept, IsMerge, Pushed, SpanAt, Render, NextIndex;
      CompactionHasReading(p, items, NextIndex(p, items, index));
      ReadingStep(p, items, index, SpansFrom(p, items, NextIndex(p, items, index)));
    }
  }

  lemma SkippedIndex(p: Platform, items: seq<Item>, index: nat, spans: seq<Span>)
    requires index < |items| && IsReadingFrom(p, items, index, spans)
    requires spans != [] ==> spans[0].start != index
    ensures IsReadingFrom(p, items, index + 1, spans)
    ensures SpanAt(p, items, index) == [] && NextIndex(p, items, index) == index + 1
  {
    hide IsFragment, IsOpening, Continues, Parsed;
    assert !Covered(spans, index);
    assert IsDropped(p, items, index);
    if IsOpening(items[index]) {
      MergeEndIsMerge(p, items, index);
      assert forall end: nat :: IsMerge(p, items, Span(index, end)) || MergeAt(p, items, index) != Some(end);
    }
  }

  lemma ReadingAtEnd(p: Platform, items: seq<Item>, spans: seq<Span>)
    requires IsReadingFrom(p, items, |items|, spans)
    ensures spans == []
  {
    assert spans != [] ==> IsKept(p, items, spans[0]) || IsMerge(p, items, spans[0]);
  }

  /** There is only one reading, so the conditions of IsReading determine the output completely. */
  lemma {:induction false} ReadingIsUnique(p: Platform, items: seq<Item>, index: nat, spans: seq<Span>)
    requires index <= |items| && IsReadingFrom(p, items, index, spans)
    ensures spans == SpansFrom(p, items, index)
    decreases |items| - index
  {
    hide IsReadingFrom, SpanAt, NextIndex;
    if spans != [] && spans[0].start == index {
      FirstSpan(p, items, index, spans);
      ReadingIsUnique(p, items, spans[0].end + 1, spans[1..]);
      assert spans == [spans[0]] + spans[1..];
    } else if index < |items| {
      SkippedIndex(p, items, index, spans);
      ReadingIsUnique(p, items, index + 1, spans);
      assert [] + spans == spans;
    } else {
      ReadingAtEnd(p, items, spans);
    }
  }

  lemma FirstTurn(p: Platform, items: seq<Item>, span: Span)
    requires IsKept(p, items, span) || IsMerge(p, items, span)
    ensures SpanAt(p, items, span.start) == [span] && NextIndex(p, items, span.start) == span.end + 1
  {
    hide IsFragment, IsOpening, Continues, Parsed;
    if span.start < span.end {
      MergeEndIsMerge(p, items, span.start);
      assert IsMerge(p, items, Span(span.start, span.end));
    }
  }

  lemma RestOfReading(p: Platform, items: seq<Item>, index: nat, spans: seq<Span>)
    requires index <= |items| && IsReadingFrom(p, items, index, spans) && spans != []
    ensures IsReadingFrom(p, items, spans[0].end + 1, spans[1..])
  {
    hide IsKept, IsMerge, IsDropped;
    var first, rest := spans[0], spans[1..];
    forall i | first.end + 1 <= i < |items| && !Covered(rest, i) ensures IsDropped(p, items, i) {
      forall k | 0 <= k < |spans| ensures !(spans[k].start <= i <= spans[k].end) {
        if k > 0 { assert rest[k - 1] == spans[k]; }
      }
    }
  }

  lemma FirstSpan(p: Platform, items: seq<Item>, index: nat, spans: seq<Span>)
    requires index <= |items| && IsReadingFrom(p, items, index, spans)
    requires spans != [] && spans[0].start == index
    ensures index <= spans[0].end < |items| && IsReadingFrom(p, items, spans[0].end + 1, spans[1..])
    ensures SpansFrom(p, items, index) == [spans[0]] + SpansFrom(p, items, spans[0].end + 1)
  {
    hide IsFragment, IsOpening, Continues, Parsed, SpanAt, NextIndex, IsDropped;
    RestOfReading(p, items, index, spans);
    assert IsKept(p, items, spans[0]) || IsMerge(p, items, spans[0]);
    FirstTurn(p, items, spans[0]);
  }

  /**
   What compaction is: its output is the rendering of a reading, and of no other list of spans with these properties.
   A reading cuts the input into increasing disjoint intervals, each either one ordinary entry or a minimal merge, and
   leaves out only fragments that begin no merge.
   */
  lemma CompactionMeaning(p: Platform, items: seq<Item>, output: seq<Item>)
    ensures output == Compact(p, items)
        <==> exists spans :: IsReading(p, items, spans) && output == Render(p, items, spans)
  {
    CompactionHasReading(p, items, 0);
    assert IsReading(p, items, SpansFrom(p, items, 0));
    forall spans | IsReading(p, items, spans) ensures Render(p, items, spans) == Compact(p, items) {
      ReadingIsUnique(p, items, 0, spans);
    }
  }

  /** Entry `m` has a timestamp within two seconds of that of entry `first`. */
  predicate CloseInTime(items: seq<Item>, first: nat, m: nat)
    requires first < |items| && m < |items|
  {
    var start, time := items[first].value.time, items[m].value.time;
    start.Some? && time.Some? && -MERGE_WINDOW <= time.value - start.value <= MERGE_WINDOW
  }

  /** Both entries have timestamps, and entry `m` does not precede entry `first` by more than two seconds. */
  predicate NotLongBefore(items: seq<Item>, first: nat, m: nat)
    requires first < |items| && m < |items|
  {
    var start, time := items[first].value.time, items[m].value.time;
    start.Some? && time.Some? && start.value - time.value <= MERGE_WINDOW
  }

  ghost predicate SpanIsClose(items: seq<Item>, span: Span)
    requires span.end < |items|
  {
    forall m :: span.start < m <= span.end ==> CloseInTime(items, span.start, m)
  }

  ghost predicate NoneLongBefore(items: seq<Item>, span: Span)
    requires span.end < |items|
  {
    forall m :: span.start < m <= span.end ==> NotLongBefore(items, span.start, m)
  }

  /** The two-second window of a merge holds exactly when its timestamps can be read and none is too early. */
  lemma MergeIsCloseExactlyWhen(p: Platform, items: seq<Item>, span: Span)
    requires IsMerge(p, items, span)
    ensures SpanIsClose(items, span) <==> NoneLongBefore(items, span)
  {
    hide Parses, IsOpening;
    forall m | span.start < m <= span.end
      ensures CloseInTime(items, span.start, m) <==> NotLongBefore(items, span.start, m)
    {
      assert Continues(p, items[span.start], items[m]);
    }
  }

  /** Line `m` fits the opening line `first`: same source, stream and severity, and not two seconds later. */
  ghost predicate FitsFirst(p: Platform, items: seq<Item>, first: nat, m: nat)
    requires first < |items| && m < |items|
  {
    var opening, line := items[first].value, items[m].value;
    && line.source == opening.source && line.stream == opening.stream && p.LogLevel(line) == p.LogLevel(opening)
    && (line.time == None || opening.time == None || line.time.value <= opening.time.value + 2000)
  }

  /**
   A merge, field by field: it opens with a lone bracket, all its lines have the source, stream and severity of the
   first and come at most two seconds after it as far as their timestamps can be read, and it is the first run of lines
   that parses as a whole.
   */
  lemma MergeExactlyWhen(p: Platform, items: seq<Item>, start: nat, end: nat)
    ensures IsMerge(p, items, Span(start, end))
        <==> && start < end < |items| && items[start].value.message.Some?
             && (Trim(items[start].value.message.value) == "{" || Trim(items[start].value.message.value) == "[")
             && (forall m :: start <= m <= end ==> FitsFirst(p, items, start, m))
             && p.Restringify(Join(Messages(items[start..end + 1]), "\n")).Some?
             && forall m :: start < m < end ==> !Parses(p, items, start, m)
  {
    if end < |items| {
      forall m | start < m <= end ensures FitsFirst(p, items, start, m) <==> Continues(p, items[start], items[m]) {
      }
    }
    hide Trim, Join, Messages, Continues;
  }

  /**
   A line that differs from the opening one in source, stream or severity, or comes more than two seconds later, ends
   the search: no merge reaches it, and the loop finds none at or behind it, however the lines behind it look.
   */
  lemma DisagreeingLineEndsTheMerge(p: Platform, items: seq<Item>, index: nat, m: nat)
    requires index < m < |items| && !FitsFirst(p, items, index, m) && IsOpening(items[index])
    ensures forall end: nat :: m <= end ==> !IsMerge(p, items, Span(index, end))
    ensures var found := MergeEnd(p, items, index, index + 1); found.Some? ==> found.value < m
    ensures MergeEnd(p, items[..m], index, index + 1) == MergeEnd(p, items, index, index + 1)
  {
    forall end: nat | m <= end ensures !IsMerge(p, items, Span(index, end)) {
      MergeExactlyWhen(p, items, index, end);
    }
    MergeEndIsMerge(p, items, index);
    MergeStopsAt(p, items, index, index + 1, m);
  }

  lemma {:induction false} MergeStopsAt(p: Platform, items: seq<Item>, index: nat, end: nat, m: nat)
    requires index < end <= m < |items| && !Continues(p, items[index], items[m])
    ensures MergeEnd(p, items[..m], index, end) == MergeEnd(p, items, index, end)
    decreases m - end
  {
    hide Continues;
    if end < m {
      assert items[..m][index..end + 1] == items[index..end + 1];
      MergeStopsAt(p, items, index, end + 1, m);
    }
  }

  /** A line on its own is dropped exactly when it is a lone bracket, perhaps with a comma, or a quoted key. */
  lemma LoneLineIsDroppedExactlyWhen(p: Platform, item: Item)
    ensures var line := Trim(item.value.message.GetOr(""));
            var isFragment := || line in {"{", "}", "[", "]", "{,", "},", "[,", "],"}
                              || (line != "" && line[0] == '"' && p.IsKeyLine(line));
            Compact(p, [item]) == if isFragment then [] else [item]
  {
    var line := Trim(item.value.message.GetOr(""));
    if item.value.message.Some? && IsOpening(item) { OpeningIsFragment(p, item); }
    assert |line| == 1 ==> line == [line[0]];
    assert |line| == 2 && line[1..] == "," ==> line == [line[0], ','];
    assert CompactFrom(p, [item], 1) == [];
    hide Trim;
  }

  lemma SpanFits(p: Platform, items: seq<Item>, spans: seq<Span>, k: nat)
    requires IsReading(p, items, spans) && k < |spans|
    ensures spans[k].start <= spans[k].end < |items|
    ensures spans[k].start < spans[k].end ==> IsMerge(p, items, spans[k])
  {
    hide Parses, IsOpening, IsDropped, Continues, IsFragment;
    assert IsKept(p, items, spans[k]) || IsMerge(p, items, spans[k]);
  }

  /** The interval of a compaction that has number `k`. */
  lemma CompactedSpan(p: Platform, items: seq<Item>, k: nat)
    requires k < |SpansFrom(p, items, 0)|
    ensures var span := SpansFrom(p, items, 0)[k];
            span.start <= span.end < |items| && (span.start < span.end ==> IsMerge(p, items, span))
  {
    CompactionHasReading(p, items, 0);
    SpanFits(p, items, SpansFrom(p, items, 0), k);
  }

  /**
   The same for each entry that a compaction outputs: all lines it was merged from lie within two seconds of the first
   if and only if their timestamps can be read and none of them precedes the first by more than two seconds.
   */
  lemma CompactedEntryIsCloseExactlyWhen(p: Platform, items: seq<Item>, k: nat)
    requires k < |Compact(p, items)|
    ensures |SpansFrom(p, items, 0)| == |Compact(p, items)|
    ensures var span := SpansFrom(p, items, 0)[k];
            && span.start <= span.end < |items| && (IsKept(p, items, span) || IsMerge(p, items, span))
            && Compact(p, items)[k] == RenderSpan(p, items, span)
            && (SpanIsClose(items, span) <==> NoneLongBefore(items, span))
  {
    hide IsFragment, IsOpening, Continues, Parses, IsDropped, Merged, CompactFrom, SpansFrom;
    CompactionHasReading(p, items, 0);
    var spans := SpansFrom(p, items, 0);
    assert Compact(p, items) == Render(p, items, spans);
    CompactedSpan(p, items, k);
    assert IsKept(p, items, spans[k]) || IsMerge(p, items, spans[k]);
    if spans[k].start < spans[k].end { MergeIsCloseExactlyWhen(p, items, spans[k]); }
  }

  /** Timestamps that can all be read and never go back, as those of one source in order. */
  predicate Chronological(items: seq<Item>) {
    && (forall k :: 0 <= k < |items| ==> items[k].value.time.Some?)
    && (forall k, m :: 0 <= k < m < |items| ==> items[k].value.time.value <= items[m].value.time.value)
  }

  /**
   In a chronological list the plain claim holds: no merged line is more than two seconds after the first, none before.
   */
  lemma ChronologicalMergesAreClose(p: Platform, items: seq<Item>, k: nat)
    requires Chronological(items) && k < |Compact(p, items)|
    ensures |SpansFrom(p, items, 0)| == |Compact(p, items)|
    ensures var span := SpansFrom(p, items, 0)[k];
            && span.start <= span.end < |items| && (IsKept(p, items, span) || IsMerge(p, items, span))
            && Compact(p, items)[k] == RenderSpan(p, items, span)
            && forall m :: span.start < m <= span.end ==>
                 0 <= items[m].value.time.value - items[span.start].value.time.value <= MERGE_WINDOW
  {
    CompactedEntryIsCloseExactlyWhen(p, items, k);
    var span := SpansFrom(p, items, 0)[k];
    hide IsKept, IsMerge, RenderSpan, Compact, SpansFrom;
    forall m | span.start < m <= span.end
      ensures NotLongBefore(items, span.start, m) && items[span.start].value.time.value <= items[m].value.time.value
    {
    }
    forall m | span.start < m <= span.end
      ensures items[m].value.time.value - items[span.start].value.time.value <= MERGE_WINDOW
    {
      assert CloseInTime(items, span.start, m);
    }
  }

  function Line(text: string, time: Option<int>): Item {
    Item(text, Entry(None, None, None, time, Some(text), ""))
  }

  /**
   The window fails: two lines that parse together are merged although the second is ten seconds older than the first,
   or although the timestamp of either cannot be read.
   */
  lemma OlderAndUnreadableLinesAreMerged(p: Platform, first: Option<int>, second: Option<int>)
    requires p.Restringify("{\n}") == Some("{}")
        && p.LogLevel(Line("{", first).value) == p.LogLevel(Line("}", second).value)
    requires (first, second) in {(Some(10000), Some(0)), (None, Some(0)), (Some(0), None)}
    ensures var items := [Line("{", first), Line("}", second)];
            && IsMerge(p, items, Span(0, 1)) && !CloseInTime(items, 0, 1)
            && Compact(p, items) == [Item("{|}", Line("{", first).value.(message := Some("{}")))]
  {
    var items := [Line("{", first), Line("}", second)];
    assert items[0..2] == items;
    assert Messages(items) == ["{", "}"] && Identities(items) == ["{", "}"];
    assert Join(["{", "}"], "\n") == "{\n}" && Join(["{", "}"], "|") == "{|}" by {
      assert ["{", "}"][1..] == ["}"];
    }
    assert Trim("{") == "{";
    assert MergeEnd(p, items, 0, 1) == Some(1);
    assert CompactFrom(p, items, 2) == [];
  }

  /** No entry of `a` can be merged across the border into `b`. */
  ghost predicate Separated(p: Platform, a: seq<Item>, b: seq<Item>) {
    b != [] ==> forall i :: 0 <= i < |a| ==> !Continues(p, a[i], b[0])
  }

  lemma {:induction false} MergeEndBeforeBorder(p: Platform, a: seq<Item>, b: seq<Item>, index: nat, end: nat)
    requires Separated(p, a, b) && index < end <= |a|
    ensures MergeEnd(p, a + b, index, end) == MergeEnd(p, a, index, end)
    decreases |a| - end
  {
    hide Continues, Parsed;
    if end < |a| {
      assert (a + b)[index..end + 1] == a[index..end + 1];
      MergeEndBeforeBorder(p, a, b, index, end + 1);
    }
  }

  lemma {:induction false} MergeEndAfterBorder(p: Platform, a: seq<Item>, b: seq<Item>, index: nat, end: nat)
    requires index < end <= |b|
    ensures var found := MergeEnd(p, b, index, end);
            MergeEnd(p, a + b, |a| + index, |a| + end) == if found.Some? then Some(|a| + found.value) else None
    decreases |b| - end
  {
    hide Continues, Parsed;
    if end < |b| {
      var whole := a + b;
      assert whole[|a| + index..|a| + end + 1] == b[index..end + 1];
      assert whole[|a| + index] == b[index] && whole[|a| + end] == b[end];
      MergeEndAfterBorder(p, a, b, index, end + 1);
    }
  }

  lemma TurnAfterBorder(p: Platform, a: seq<Item>, b: seq<Item>, index: nat)
    requires index < |b|
    ensures Pushed(p, a + b, |a| + index) == Pushed(p, b, index)
    ensures NextIndex(p, a + b, |a| + index) == |a| + NextIndex(p, b, index)
  {
    hide IsFragment, IsOpening, Continues, Parsed;
    MergeEndAfterBorder(p, a, b, index, index + 1);
    var next := NextIndex(p, b, index);
    assert (a + b)[|a| + index..|a| + next] == b[index..next];
  }

  lemma TurnBeforeBorder(p: Platform, a: seq<Item>, b: seq<Item>, index: nat)
    requires Separated(p, a, b) && index < |a|
    ensures Pushed(p, a + b, index) == Pushed(p, a, index)
    ensures NextIndex(p, a + b, index) == NextIndex(p, a, index)
  {
    hide IsFragment, IsOpening, Continues, Parsed;
    MergeEndBeforeBorder(p, a, b, index, index + 1);
    var next := NextIndex(p, a, index);
    assert (a + b)[index..next] == a[index..next];
  }

  lemma {:induction false} CompactAfterBorder(p: Platform, a: seq<Item>, b: seq<Item>, index: nat)
    requires index <= |b|
    ensures CompactFrom(p, a + b, |a| + index) == CompactFrom(p, b, index)
    decreases |b| - index
  {
    hide Pushed, NextIndex;
    if index < |b| {
      TurnAfterBorder(p, a, b, index);
      CompactAfterBorder(p, a, b, NextIndex(p, b, index));
    }
  }

  lemma {:induction false} CompactBeforeBorder(p: Platform, a: seq<Item>, b: seq<Item>, index: nat)
    requires Separated(p, a, b) && index <= |a|
    ensures CompactFrom(p, a + b, index) == CompactFrom(p, a, index) + Compact(p, b)
    decreases |a| - index
  {
    hide Pushed, NextIndex, Separated;
    if index == |a| {
      CompactAfterBorder(p, a, b, 0);
      assert CompactFrom(p, a, index) == [];
      assert [] + Compact(p, b) == Compact(p, b);
    } else {
      TurnBeforeBorder(p, a, b, index);
      var next := NextIndex(p, a, index);
      CompactBeforeBorder(p, a, b, next);
      ConcatIsAssociative(Pushed(p, a, index), CompactFrom(p, a, next), Compact(p, b));
    }
  }

  /**
   Compaction distributes over concatenation whenever the second list begins with an entry that differs in source,
   stream or severity from, or is more than two seconds later than, each entry of the first.
   */
  lemma CompactionDistributes(p: Platform, a: seq<Item>, b: seq<Item>)
    requires Separated(p, a, b)
    ensures Compact(p, a + b) == Compact(p, a) + Compact(p, b)
  {
    CompactBeforeBorder(p, a, b, 0);
  }

  /**
   What JSON.parse and JSON.stringify promise: a text whose first visible character opens an object or an array parses
   to one, and an object or array is written with its brackets at both ends.
   */
  ghost predicate WritesBrackets(p: Platform) {
    forall text: string :: p.Restringify(text).Some? && TrimStart(text) != "" ==>
      var written := p.Restringify(text).value;
      && (TrimStart(text)[0] == '{' ==> |written| >= 2 && written[0] == '{' && written[|written| - 1] == '}')
      && (TrimStart(text)[0] == '[' ==> |written| >= 2 && written[0] == '[' && written[|written| - 1] == ']')
  }

  lemma {:induction false} TrimStartOfLongerText(a: string, b: string)
    requires TrimStart(a) != ""
    ensures TrimStart(a + b) == TrimStart(a) + b
  {
    hide IsSpace;
    if IsSpace(a[0]) {
      assert (a + b)[1..] == a[1..] + b;
      TrimStartOfLongerText(a[1..], b);
    }
  }

  ghost predicate IsOrdinary(p: Platform, item: Item) {
    !IsOpening(item) && !IsFragment(p, item)
  }

  lemma BracketedIsOrdinary(p: Platform, item: Item, written: string)
    requires item.value.message == Some(written) && |written| >= 2
    requires (written[0] == '{' && written[|written| - 1] == '}')
        || (written[0] == '[' && written[|written| - 1] == ']')
    ensures IsOrdinary(p, item)
  {
    hide TrimStart, TrimEnd, Trim;
    TrimMeaning(written);
    assert written[1..][|written| - 2] == written[|written| - 1];
  }

  lemma JoinedTextStartsLikeFirst(first: string, parts: seq<string>)
    requires parts != [] && parts[0] == first && Trim(first) in {"{", "["}
    ensures TrimStart(Join(parts, "\n")) != "" && TrimStart(Join(parts, "\n"))[0] == Trim(first)[0]
  {
    hide TrimStart, TrimEnd;
    TrimMeaning(first);
    if |parts| > 1 {
      var rest := "\n" + Join(parts[1..], "\n");
      TrimStartOfLongerText(first, rest);
      assert Join(parts, "\n") == first + rest;
    }
  }

  lemma MergedIsOrdinary(p: Platform, items: seq<Item>)
    requires WritesBrackets(p) && items != [] && IsOpening(items[0]) && Parsed(p, items).Some?
    ensures IsOrdinary(p, Merged(p, items))
  {
    hide IsFragment, IsOrdinary, TrimStart, TrimEnd, Trim;
    JoinedTextStartsLikeFirst(Message(items[0]), Messages(items));
    BracketedIsOrdinary(p, Merged(p, items), Parsed(p, items).value);
  }

  lemma PushedIsOrdinary(p: Platform, items: seq<Item>, index: nat)
    requires WritesBrackets(p) && index < |items|
    ensures forall k :: 0 <= k < |Pushed(p, items, index)| ==> IsOrdinary(p, Pushed(p, items, index)[k])
  {
    hide IsFragment, IsOpening, Continues, Parsed, WritesBrackets;
    match MergeAt(p, items, index)
    case Some(end) =>
      assert items[index..end + 1][0] == items[index];
      MergedIsOrdinary(p, items[index..end + 1]);
    case None =>
      if IsOpening(items[index]) {
        OpeningIsFragment(p, items[index]);
      }
  }

  lemma {:induction false} CompactedIsOrdinary(p: Platform, items: seq<Item>, index: nat)
    requires WritesBrackets(p) && index <= |items|
    ensures forall k :: 0 <= k < |CompactFrom(p, items, index)| ==> IsOrdinary(p, CompactFrom(p, items, index)[k])
    decreases |items| - index
  {
    hide IsOrdinary, Pushed, NextIndex, WritesBrackets;
    if index < |items| {
      PushedIsOrdinary(p, items, index);
      CompactedIsOrdinary(p, items, NextIndex(p, items, index));
    }
  }

  lemma OrdinaryTurn(p: Platform, items: seq<Item>, index: nat)
    requires index < |items| && IsOrdinary(p, items[index])
    ensures Pushed(p, items, index) == [items[index]] && NextIndex(p, items, index) == index + 1
  {
  }

  lemma {:induction false} OrdinaryIsUnchanged(p: Platform, items: seq<Item>, index: nat)
    requires index <= |items| && forall k :: 0 <= k < |items| ==> IsOrdinary(p, items[k])
    ensures CompactFrom(p, items, index) == items[index..]
    decreases |items| - index
  {
    hide IsOrdinary, Pushed, NextIndex;
    if index < |items| {
      OrdinaryTurn(p, items, index);
      OrdinaryIsUnchanged(p, items, index + 1);
      assert items[index..] == [items[index]] + items[index + 1..];
    }
  }

  /** Compacting a compacted list returns it unchanged, for every input list. */
  lemma CompactionIsIdempotent(p: Platform, items: seq<Item>)
    requires WritesBrackets(p)
    ensures Compact(p, Compact(p, items)) == Compact(p, items)
  {
    CompactedIsOrdinary(p, items, 0);
    OrdinaryIsUnchanged(p, Compact(p, items), 0);
  }
}
