/** The few string operations of the browser code: trimming, joining, de-duplicating and splitting into lines. */
module Text {

  /** White space as String.prototype.trim and the regular expression class \s see it. */
  predicate IsSpace(c: char) {
    || '\t' <= c <= '\r' || c == ' ' || c == '\U{00A0}' || c == '\U{1680}' || '\U{2000}' <= c <= '\U{200A}'
    || c == '\U{2028}' || c == '\U{2029}' || c == '\U{202F}' || c == '\U{205F}' || c == '\U{3000}' || c == '\U{FEFF}'
  }

  /** Neither the first nor the last character is white space. */
  predicate Trimmed(s: string) {
    s == "" || (!IsSpace(s[0]) && !IsSpace(s[|s| - 1]))
  }

  function TrimStart(s: string): string {
    if s != "" && IsSpace(s[0]) then TrimStart(s[1..]) else s
  }

  function TrimEnd(s: string): string {
    if s != "" && IsSpace(s[|s| - 1]) then TrimEnd(s[..|s| - 1]) else s
  }

  function Trim(s: string): string {
    TrimEnd(TrimStart(s))
  }

  /** Trimming the front removes white space only, and all of it. */
  lemma {:induction false} TrimStartIsSuffix(s: string)
    ensures |TrimStart(s)| <= |s| && TrimStart(s) == s[|s| - |TrimStart(s)|..]
    ensures TrimStart(s) == "" || !IsSpace(TrimStart(s)[0])
  {
    if s != "" && IsSpace(s[0]) {
      TrimStartIsSuffix(s[1..]);
    }
  }

  lemma {:induction false} TrimEndIsPrefix(s: string)
    ensures |TrimEnd(s)| <= |s| && TrimEnd(s) == s[..|TrimEnd(s)|]
    ensures TrimEnd(s) == "" || !IsSpace(TrimEnd(s)[|TrimEnd(s)| - 1])
  {
    if s != "" && IsSpace(s[|s| - 1]) {
      TrimEndIsPrefix(s[..|s| - 1]);
    }
  }

  /**
   A trimmed text has no white space at its ends, consists of consecutive characters of the original, and is stable.
   */
  lemma TrimMeaning(s: string)
    ensures Trimmed(Trim(s))
    ensures Trimmed(s) ==> Trim(s) == s
    ensures forall c :: c in Trim(s) ==> c in s
    ensures Trim(s) != "" ==> TrimStart(s) != "" && TrimStart(s)[0] == Trim(s)[0]
  {
    TrimStartIsSuffix(s);
    TrimEndIsPrefix(TrimStart(s));
  }

  /** Array.prototype.join. */
  function Join(parts: seq<string>, separator: string): string {
    if |parts| == 0 then ""
    else if |parts| == 1 then parts[0]
    else parts[0] + separator + Join(parts[1..], separator)
  }

  lemma ConcatIsAssociative<T>(a: seq<T>, b: seq<T>, c: seq<T>)
    ensures a + b + c == a + (b + c)
  {
  }

  ghost predicate NoDuplicates<T>(xs: seq<T>) {
    forall i, j :: 0 <= i < j < |xs| ==> xs[i] != xs[j]
  }

  /** Spreading a Set built from a list: the first occurrence of every element, in order. */
  function Dedup<T(==,!new)>(xs: seq<T>): (ys: seq<T>)
    ensures NoDuplicates(ys)
    ensures forall x :: x in ys <==> x in xs
    ensures NoDuplicates(xs) ==> ys == xs
  {
    if xs == [] then []
    else
      var init, last := xs[..|xs| - 1], xs[|xs| - 1];
      assert xs == init + [last];
      if last in init then Dedup(init) else Dedup(init) + [last]
  }

  /** The index of the first line feed, or the length when there is none. */
  function LineEnd(s: string): (i: nat)
    ensures i <= |s|
  {
    if s == "" || s[0] == '\n' then 0 else 1 + LineEnd(s[1..])
  }

  lemma {:induction false} LineEndIsFirst(s: string)
    ensures '\n' !in s[..LineEnd(s)]
    ensures LineEnd(s) < |s| ==> s[LineEnd(s)] == '\n'
  {
    if s != "" && s[0] != '\n' {
      LineEndIsFirst(s[1..]);
      var i := LineEnd(s[1..]);
      assert s[..i + 1] == [s[0]] + s[1..][..i];
    }
  }

  lemma {:induction false} LineEndIs(s: string, i: nat)
    requires i <= |s| && '\n' !in s[..i]
    requires i < |s| ==> s[i] == '\n'
    ensures LineEnd(s) == i
  {
    if i > 0 {
      assert s[0] == s[..i][0];
      assert s[1..][..i - 1] == s[..i][1..];
      LineEndIs(s[1..], i - 1);
    }
  }

  function DropCarriageReturn(line: string): string {
    if line != "" && line[|line| - 1] == '\r' then line[..|line| - 1] else line
  }

  /** Splitting at /\r?\n/: a line feed ends a line, together with one carriage return before it. */
  function SplitLines(s: string): seq<string> {
    var i := LineEnd(s);
    if i == |s| then [s] else [DropCarriageReturn(s[..i])] + SplitLines(s[i + 1..])
  }

  lemma {:induction false} JoinConcat(a: seq<string>, b: seq<string>, separator: string)
    requires a != [] && b != []
    ensures Join(a + b, separator) == Join(a, separator) + separator + Join(b, separator)
  {
    if |a| == 1 {
      assert (a + b)[1..] == b;
    } else {
      assert (a + b)[1..] == a[1..] + b;
      JoinConcat(a[1..], b, separator);
    }
  }

  lemma ReturnIsDropped(line: string, ending: string)
    requires ending in {"", "\r"} && DropCarriageReturn(line) == line
    ensures DropCarriageReturn(line + ending) == line
  {
    if ending == "" {
      assert line + ending == line;
    } else {
      assert (line + ending)[..|line|] == line;
    }
  }

  lemma SplitAt(line: string, rest: string)
    requires '\n' !in line
    ensures SplitLines(line + "\n" + rest) == [DropCarriageReturn(line)] + SplitLines(rest)
  {
    hide LineEnd, DropCarriageReturn;
    var text := line + "\n" + rest;
    assert text[..|line|] == line && text[|line| + 1..] == rest;
    LineEndIs(text, |line|);
  }

  lemma FirstLine(first: string, ending: string, rest: string)
    requires ending in {"", "\r"} && '\n' !in first && DropCarriageReturn(first) == first
    ensures SplitLines(first + ending + "\n" + rest) == [first] + SplitLines(rest)
  {
    hide SplitLines, DropCarriageReturn;
    ReturnIsDropped(first, ending);
    assert '\n' !in ending;
    SplitAt(first + ending, rest);
  }

  lemma OnlyLine(line: string)
    requires '\n' !in line
    ensures SplitLines(line) == [line]
  {
    assert line[..|line|] == line;
    LineEndIs(line, |line|);
  }

  /** Lines joined by either kind of line break are read back as they were. */
  lemma {:induction false} SplitOfJoined(lines: seq<string>, ending: string)
    requires lines != [] && ending in {"", "\r"}
    requires forall k :: 0 <= k < |lines| ==> '\n' !in lines[k] && DropCarriageReturn(lines[k]) == lines[k]
    ensures SplitLines(Join(lines, ending + "\n")) == lines
  {
    hide SplitLines, DropCarriageReturn;
    if |lines| == 1 {
      OnlyLine(lines[0]);
    } else {
      var rest := Join(lines[1..], ending + "\n");
      FirstLine(lines[0], ending, rest);
      assert lines[0] + (ending + "\n") + rest == lines[0] + ending + "\n" + rest;
      SplitOfJoined(lines[1..], ending);
    }
  }
}
