/**
 The direct-connection rules of the proxy form: one text area holds the host patterns and the CIDR blocks that the
 configuration keeps in two lists. `app.js` and the plugin's `client.js` hold the same three functions.
 */
module DirectRules {
  import opened Text

  /** The two stored lists; a missing list counts as an empty one. */
  datatype Rules = Rules(noProxy: seq<string>, bypass: seq<string>)

  /** Trims every line and drops the empty ones. */
  function KeepNonEmpty(lines: seq<string>): seq<string> {
    if lines == [] then []
    else (if Trim(lines[0]) == "" then [] else [Trim(lines[0])]) + KeepNonEmpty(lines[1..])
  }

  function ProxyLines(value: string): seq<string> {
    KeepNonEmpty(SplitLines(value))
  }

  function DropDigits(s: string): (t: string)
    ensures |t| <= |s| && t == s[..|t|]
    ensures forall i :: |t| <= i < |s| ==> '0' <= s[i] <= '9'
    ensures t == "" || !('0' <= t[|t| - 1] <= '9')
  {
    if s != "" && '0' <= s[|s| - 1] <= '9' then DropDigits(s[..|s| - 1]) else s
  }

  /** The test /\/\d+$/: a slash followed by decimal digits up to the end. */
  predicate IsCidr(rule: string) {
    var stem := DropDigits(rule);
    |stem| < |rule| && stem != "" && stem[|stem| - 1] == '/'
  }

  /** Array.prototype.filter with the CIDR test or its negation. */
  function Select(rules: seq<string>, cidr: bool): seq<string> {
    if rules == [] then []
    else (if IsCidr(rules[0]) == cidr then [rules[0]] else []) + Select(rules[1..], cidr)
  }

  function SplitDirectRules(value: string): Rules {
    var rules := ProxyLines(value);
    Rules(Select(rules, false), Select(rules, true))
  }

  function DirectRuleText(rules: Rules): string {
    Join(Dedup(rules.noProxy + rules.bypass), "\n")
  }

  /** A rule that occupies exactly one line of the text area. */
  predicate CleanRule(rule: string) {
    rule != "" && Trimmed(rule) && '\n' !in rule
  }

  /** What a stored configuration must look like to survive the text area. */
  ghost predicate WellFormed(rules: Rules) {
    && (forall rule :: rule in rules.noProxy ==> CleanRule(rule) && !IsCidr(rule))
    && (forall rule :: rule in rules.bypass ==> CleanRule(rule) && IsCidr(rule))
    && NoDuplicates(rules.noProxy)
    && NoDuplicates(rules.bypass)
  }

  lemma {:induction false} DropDigitsIs(s: string, k: nat)
    requires 0 < k <= |s| && !('0' <= s[k - 1] <= '9')
    requires forall i :: k <= i < |s| ==> '0' <= s[i] <= '9'
    ensures DropDigits(s) == s[..k]
  {
    if k < |s| {
      DropDigitsIs(s[..|s| - 1], k);
      assert s[..|s| - 1][..k] == s[..k];
    }
  }

  ghost predicate SlashThenDigits(rule: string, k: int) {
    0 <= k < |rule| - 1 && rule[k] == '/' && forall i :: k < i < |rule| ==> '0' <= rule[i] <= '9'
  }

  /** What the test means: some slash is followed by decimal digits only, and by at least one. */
  lemma CidrMeaning(rule: string)
    ensures IsCidr(rule) <==> exists k :: SlashThenDigits(rule, k)
  {
    var stem := DropDigits(rule);
    if IsCidr(rule) {
      assert SlashThenDigits(rule, |stem| - 1);
    }
    if k :| SlashThenDigits(rule, k) {
      DropDigitsIs(rule, k + 1);
    }
  }

  lemma ReadLine(line: string, lines: seq<string>)
    ensures KeepNonEmpty([line] + lines) == (if Trim(line) == "" then [] else [Trim(line)]) + KeepNonEmpty(lines)
  {
    assert ([line] + lines)[1..] == lines;
  }

  /** The rules of a text are those of its first line followed by those of the remaining text. */
  lemma LinesStep(value: string)
    ensures LineEnd(value) == |value| ==> ProxyLines(value) == if Trim(value) == "" then [] else [Trim(value)]
    ensures LineEnd(value) < |value| ==>
              var line := Trim(DropCarriageReturn(value[..LineEnd(value)]));
              ProxyLines(value) == (if line == "" then [] else [line]) + ProxyLines(value[LineEnd(value) + 1..])
  {
    var i := LineEnd(value);
    if i < |value| {
      ReadLine(DropCarriageReturn(value[..i]), SplitLines(value[i + 1..]));
    } else {
      ReadLine(value, []);
      assert [value] + [] == [value];
      assert KeepNonEmpty([]) == [];
    }
  }

  ghost predicate AllClean(rules: seq<string>) {
    forall k :: 0 <= k < |rules| ==> CleanRule(rules[k])
  }

  /** Every rule read from a text area is one trimmed, non-empty line. */
  lemma {:induction false} LinesAreClean(value: string)
    ensures AllClean(ProxyLines(value))
    decreases |value|
  {
    LinesStep(value);
    LineEndIsFirst(value);
    var i := LineEnd(value);
    if i < |value| {
      TrimMeaning(DropCarriageReturn(value[..i]));
      LinesAreClean(value[i + 1..]);
    } else {
      assert value[..i] == value;
      TrimMeaning(value);
    }
  }

  /** Reading a clean first line and then the rest. */
  lemma ReadFirstLine(first: string, rest: string)
    requires CleanRule(first)
    ensures ProxyLines(first) == [first]
    ensures ProxyLines(first + "\n" + rest) == [first] + ProxyLines(rest)
  {
    TrimMeaning(first);
    assert first[..|first|] == first;
    LineEndIs(first, |first|);
    LinesStep(first);
    var s := first + "\n" + rest;
    assert s[..|first|] == first && s[|first|] == '\n' && s[|first| + 1..] == rest;
    LineEndIs(s, |first|);
    LinesStep(s);
  }

  /** Reading back what was joined from clean rules gives the rules. */
  lemma {:induction false} LinesOfJoinedRules(rules: seq<string>)
    requires AllClean(rules)
    ensures ProxyLines(Join(rules, "\n")) == rules
  {
    if rules == [] {
      LinesStep("");
    } else {
      var first, rest := rules[0], rules[1..];
      LinesOfJoinedRules(rest);
      ReadFirstLine(first, Join(rest, "\n"));
      assert rules == [first] + rest;
    }
  }

  lemma {:induction false} SelectMembers(rules: seq<string>, cidr: bool)
    ensures forall rule :: rule in Select(rules, cidr) <==> rule in rules && IsCidr(rule) == cidr
  {
    hide IsCidr;
    if rules != [] {
      SelectMembers(rules[1..], cidr);
      assert rules == [rules[0]] + rules[1..];
    }
  }

  lemma {:induction false} SelectConcat(a: seq<string>, b: seq<string>, cidr: bool)
    ensures Select(a + b, cidr) == Select(a, cidr) + Select(b, cidr)
  {
    hide IsCidr;
    if a == [] {
      assert a + b == b;
    } else {
      assert (a + b)[0] == a[0] && (a + b)[1..] == a[1..] + b;
      SelectConcat(a[1..], b, cidr);
    }
  }

  lemma {:induction false} SelectUniform(rules: seq<string>, kind: bool)
    requires forall rule :: rule in rules ==> IsCidr(rule) == kind
    ensures Select(rules, kind) == rules
    ensures Select(rules, !kind) == []
  {
    hide IsCidr;
    if rules != [] {
      assert rules[0] in rules;
      SelectUniform(rules[1..], kind);
    }
  }

  lemma {:induction false} SelectKeepsDistinct(rules: seq<string>, cidr: bool)
    requires NoDuplicates(rules)
    ensures NoDuplicates(Select(rules, cidr))
  {
    hide IsCidr;
    if rules != [] {
      SelectKeepsDistinct(rules[1..], cidr);
      SelectMembers(rules[1..], cidr);
      assert rules[0] !in Select(rules[1..], cidr);
    }
  }

  /** Sorting plain rules before CIDR rules and splitting again gives the two parts back. */
  lemma SelectOfSorted(plain: seq<string>, cidr: seq<string>)
    requires forall rule :: rule in plain ==> !IsCidr(rule)
    requires forall rule :: rule in cidr ==> IsCidr(rule)
    ensures Select(plain + cidr, false) == plain && Select(plain + cidr, true) == cidr
  {
    SelectConcat(plain, cidr, false);
    SelectConcat(plain, cidr, true);
    SelectUniform(plain, false);
    SelectUniform(cidr, true);
  }

  lemma WellFormedSurvives(rules: Rules)
    requires WellFormed(rules)
    ensures SplitDirectRules(DirectRuleText(rules)) == rules
  {
    var all := rules.noProxy + rules.bypass;
    forall i, j | 0 <= i < j < |all| ensures all[i] != all[j] {
      if i < |rules.noProxy| <= j {
        assert all[i] in rules.noProxy && all[j] in rules.bypass;
      }
    }
    assert Dedup(all) == all;
    LinesOfJoinedRules(all);
    SelectOfSorted(rules.noProxy, rules.bypass);
  }

  lemma SurvivorsAreWellFormed(rules: Rules)
    requires SplitDirectRules(DirectRuleText(rules)) == rules
    ensures WellFormed(rules)
  {
    var printed := Dedup(rules.noProxy + rules.bypass);
    var lines := ProxyLines(DirectRuleText(rules));
    LinesAreClean(DirectRuleText(rules));
    SelectMembers(lines, false);
    SelectMembers(lines, true);
    forall k | 0 <= k < |printed| ensures CleanRule(printed[k]) {
      assert printed[k] in rules.noProxy + rules.bypass;
    }
    LinesOfJoinedRules(printed);
    SelectKeepsDistinct(printed, false);
    SelectKeepsDistinct(printed, true);
  }

  /**
   A configuration survives printing and splitting exactly when it is well formed: every rule is a trimmed, non-empty
   single line, no rule is listed twice, and every rule is in the list of its kind.
   */
  lemma RoundTripExactlyWhenWellFormed(rules: Rules)
    ensures SplitDirectRules(DirectRuleText(rules)) == rules <==> WellFormed(rules)
  {
    if WellFormed(rules) {
      WellFormedSurvives(rules);
    }
    if SplitDirectRules(DirectRuleText(rules)) == rules {
      SurvivorsAreWellFormed(rules);
    }
  }

  /** The text the form shows after a save and a reload. */
  function Normalized(value: string): string {
    DirectRuleText(SplitDirectRules(value))
  }

  lemma {:induction false} DedupConcatDisjoint(a: seq<string>, b: seq<string>)
    requires forall x :: x in a ==> x !in b
    ensures Dedup(a + b) == Dedup(a) + Dedup(b)
  {
    if b == [] {
      assert a + b == a;
    } else {
      var init, last := b[..|b| - 1], b[|b| - 1];
      assert (a + b)[..|a + b| - 1] == a + init;
      assert last in b;
      DedupConcatDisjoint(a, init);
    }
  }

  lemma TypedRules(value: string)
    ensures forall rule :: rule in SplitDirectRules(value).noProxy ==> CleanRule(rule) && !IsCidr(rule)
    ensures forall rule :: rule in SplitDirectRules(value).bypass ==> CleanRule(rule) && IsCidr(rule)
  {
    LinesAreClean(value);
    SelectMembers(ProxyLines(value), false);
    SelectMembers(ProxyLines(value), true);
  }

  /** Whatever was typed, splitting the printed text gives the typed rules sorted by kind, each kept once. */
  lemma SplitOfNormalized(value: string)
    ensures SplitDirectRules(Normalized(value))
            == Rules(Dedup(SplitDirectRules(value).noProxy), Dedup(SplitDirectRules(value).bypass))
  {
    var typed := SplitDirectRules(value);
    TypedRules(value);
    DedupConcatDisjoint(typed.noProxy, typed.bypass);
    var once := Rules(Dedup(typed.noProxy), Dedup(typed.bypass));
    forall k | 0 <= k < |once.noProxy + once.bypass| ensures CleanRule((once.noProxy + once.bypass)[k]) {
      assert (once.noProxy + once.bypass)[k] in typed.noProxy + typed.bypass;
    }
    LinesOfJoinedRules(once.noProxy + once.bypass);
    SelectOfSorted(once.noProxy, once.bypass);
  }

  /** Printing after splitting is a normal form: it is idempotent on every text. */
  lemma NormalizedIsIdempotent(value: string)
    ensures Normalized(Normalized(value)) == Normalized(value)
    ensures WellFormed(SplitDirectRules(Normalized(value)))
  {
    SplitOfNormalized(value);
    var typed := SplitDirectRules(value);
    var once := SplitDirectRules(Normalized(value));
    TypedRules(value);
    DedupConcatDisjoint(typed.noProxy, typed.bypass);
    DedupConcatDisjoint(once.noProxy, once.bypass);
  }
}
