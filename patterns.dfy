/**
 * The regular expressions of the action-item extractor, matched by hand with
 * the semantics of Python's `re`: `re.search` takes the leftmost starting
 * position at which the pattern matches; alternatives are tried in the order
 * they are written, and a later one only when the rest of the pattern fails
 * after an earlier one; `+` and `*` are greedy.
 *
 * Every `\s+` below, except the ones before `([^.!?]+)`, is followed by an
 * element that must start with a non-space character, so its greedy run is
 * the only one that can succeed and it is matched as that maximal run.
 * `\s+([^.!?]+)` and `\s*([^.!?]+)` are handled by SpacedRest and
 * OptSpacedRest, where the space run can give one character back.
 *
 * Positions are indices into the string; a matcher returns the position after
 * what it matched, or the text of the capture group.
 */
module Patterns {
  import opened Wrappers
  import opened PyText

  predicate IsTerminator(c: char) { c == '.' || c == '!' || c == '?' }

  /** The class `[^.!?]` */
  predicate NotTerminator(c: char) { !IsTerminator(c) }

  /** The class `\w`, ASCII only */
  predicate IsWordChar(c: char) { IsLetter(c) || '0' <= c <= '9' || c == '_' }

  predicate NoTerminator(g: string) {
    forall k :: 0 <= k < |g| ==> !IsTerminator(g[k])
  }

  /** Where a greedy run of the class `inClass` started at i stops. */
  function RunEnd(s: string, i: nat, inClass: char -> bool): (e: nat)
    requires i <= |s|
    ensures i <= e <= |s|
    ensures forall k :: i <= k < e ==> inClass(s[k])
    ensures e < |s| ==> !inClass(s[e])
    decreases |s| - i
  {
    if i < |s| && inClass(s[i]) then RunEnd(s, i + 1, inClass) else i
  }

  /**
   * The literal `lit` at i, written in lower case; with `ignoreCase`
   * (re.IGNORECASE) an upper-case letter in `s` matches its lower-case one.
   */
  function Lit(s: string, i: nat, lit: string, ignoreCase: bool): (e: Option<nat>)
    ensures e.Some? ==> e.value == i + |lit| <= |s|
    ensures e.Some? <==> i + |lit| <= |s| && (if ignoreCase then Lower(s[i..i + |lit|]) == lit else s[i..i + |lit|] == lit)
  {
    if i + |lit| <= |s| && (if ignoreCase then Lower(s[i..i + |lit|]) == lit else s[i..i + |lit|] == lit)
    then Some(i + |lit|)
    else None
  }

  /** `\s+` at i */
  function Spaces(s: string, i: nat): (e: Option<nat>)
    ensures e.Some? ==> i < e.value <= |s|
  {
    if i > |s| then None
    else
      var e := RunEnd(s, i, IsSpace);
      if e > i then Some(e) else None
  }

  /** `first\s+second` at i */
  function TwoWords(s: string, i: nat, first: string, second: string, ignoreCase: bool): (e: Option<nat>)
    ensures e.Some? ==> i < e.value <= |s|
  {
    var a :- Lit(s, i, first, ignoreCase);
    var b :- Spaces(s, a);
    Lit(s, b, second, ignoreCase)
  }

  /** `word\s+` at i */
  function WordThenSpaces(s: string, i: nat, word: string): (e: Option<nat>)
    ensures e.Some? ==> i <= e.value <= |s|
  {
    var a :- Lit(s, i, word, true);
    Spaces(s, a)
  }

  /** The group `([^.!?]+)` from i: everything up to the next `.`, `!` or `?`, or to the end. */
  function RestOfClause(s: string, i: nat): (g: string)
    requires i < |s| && !IsTerminator(s[i])
    ensures g != [] && NoTerminator(g)
  {
    var m := RunEnd(s, i, NotTerminator);
    assert forall k :: 0 <= k < m - i ==> s[i..m][k] == s[i + k];
    s[i..m]
  }

  /**
   * `\s+([^.!?]+)` at i: the text of the group. When the space run reaches a
   * terminator or the end of `s`, the run gives its last space to the group,
   * which is possible only if the run is at least two long.
   */
  function SpacedRest(s: string, i: nat): (g: Option<string>)
    ensures g.Some? ==> g.value != [] && NoTerminator(g.value)
  {
    if i > |s| then None
    else
      var e := RunEnd(s, i, IsSpace);
      if e == i then None
      else if e < |s| && !IsTerminator(s[e]) then Some(RestOfClause(s, e))
      else if e - i >= 2 then Some(RestOfClause(s, e - 1))
      else None
  }

  /** `\s*([^.!?]+)` at i: as SpacedRest, but no space is needed before the group. */
  function OptSpacedRest(s: string, i: nat): (g: Option<string>)
    ensures g.Some? ==> g.value != [] && NoTerminator(g.value)
  {
    if i > |s| then None
    else
      var e := RunEnd(s, i, IsSpace);
      if e < |s| && !IsTerminator(s[e]) then Some(RestOfClause(s, e))
      else if e > i then Some(RestOfClause(s, e - 1))
      else None
  }

  /**
   * An alternation followed by the rest of a pattern: the end of each
   * alternative (None where it does not match) in the written order, and the
   * rest of the pattern from an end. The first alternative after which the
   * rest matches gives the match.
   */
  function FirstMatch<T>(ends: seq<Option<nat>>, rest: nat -> Option<T>): (r: Option<T>)
    ensures r.Some? ==> exists k :: && 0 <= k < |ends| && ends[k].Some? && rest(ends[k].value) == r
                                    && forall j :: 0 <= j < k ==> ends[j].None? || rest(ends[j].value).None?
    ensures r.None? ==> forall k :: 0 <= k < |ends| && ends[k].Some? ==> rest(ends[k].value).None?
  {
    if ends == [] then None
    else if ends[0].Some? && rest(ends[0].value).Some? then rest(ends[0].value)
    else
      var r := FirstMatch(ends[1..], rest);
      assert forall k :: 1 <= k < |ends| ==> ends[k] == ends[1..][k - 1];
      r
  }

  /** `re.search`: the match at the leftmost position, from i on, at which the pattern `at` matches. */
  function Search<T>(s: string, i: nat, at: nat -> Option<T>): (r: Option<T>)
    ensures r.Some? ==> exists p :: i <= p <= |s| && at(p) == r && forall q :: i <= q < p ==> at(q).None?
    ensures r.None? ==> forall p :: i <= p <= |s| ==> at(p).None?
    decreases |s| + 1 - i
  {
    if i > |s| then None
    else if at(i).Some? then at(i)
    else Search(s, i + 1, at)
  }

  /** The first present value of a list tried in order. */
  function FirstSome<T>(xs: seq<Option<T>>): (r: Option<T>)
    ensures r.Some? ==> exists k :: 0 <= k < |xs| && xs[k] == r && forall j :: 0 <= j < k ==> xs[j].None?
    ensures r.None? ==> forall k :: 0 <= k < |xs| ==> xs[k].None?
  {
    if xs == [] then None
    else if xs[0].Some? then xs[0]
    else FirstSome(xs[1..])
  }

  // ---------------------------------------------------------------------
  // Strategy 1: ([A-Z][a-z]+)\s+(will|should|must|needs?\s+to|has\s+to)\s+([^.!?]+)
  // ---------------------------------------------------------------------

  /** The modal alternatives `will|should|must|needs?\s+to|has\s+to`, case-sensitive. */
  function ModalEnds(s: string, i: nat): seq<Option<nat>> {
    [Lit(s, i, "will", false), Lit(s, i, "should", false), Lit(s, i, "must", false),
     TwoWords(s, i, "needs", "to", false), TwoWords(s, i, "need", "to", false),
     TwoWords(s, i, "has", "to", false)]
  }

  predicate IsCapitalizedName(p: string) {
    |p| >= 2 && IsUpper(p[0]) && forall k :: 1 <= k < |p| ==> IsLower(p[k])
  }

  /** Strategy 1 at position i: groups 1 (the person) and 3 (the action). */
  function PersonModalAt(s: string, i: nat): (r: Option<(string, string)>)
    ensures r.Some? ==> IsCapitalizedName(r.value.0) && r.value.1 != [] && NoTerminator(r.value.1)
  {
    if i >= |s| || !IsUpper(s[i]) then None
    else
      var a := RunEnd(s, i + 1, IsLower);
      if a == i + 1 then None
      else
        var person := s[i..a];
        assert IsCapitalizedName(person) by {
          assert forall k :: 1 <= k < |person| ==> person[k] == s[i + k];
        }
        var b :- Spaces(s, a);
        FirstMatch(ModalEnds(s, b), c => ModalRest(s, person, c))
  }

  /** After a modal alternative ending at c: `\s+([^.!?]+)`, paired with the person. */
  function ModalRest(s: string, person: string, c: nat): Option<(string, string)> {
    var g :- SpacedRest(s, c);
    Some((person, g))
  }

  /** `re.search` of strategy 1 over a sentence. */
  function PersonModal(s: string): (r: Option<(string, string)>)
    ensures r.Some? ==> IsCapitalizedName(r.value.0) && r.value.1 != [] && NoTerminator(r.value.1)
  {
    Search(s, 0, i => PersonModalAt(s, i))
  }

  // ---------------------------------------------------------------------
  // Strategy 2: (?:action\s+item|task)[:]\s*([^.!?]+), ignoring case
  // ---------------------------------------------------------------------

  /** Strategy 2 at position i: group 1 (the action). */
  function ActionLabelAt(s: string, i: nat): (r: Option<string>)
    ensures r.Some? ==> r.value != [] && NoTerminator(r.value)
  {
    FirstMatch([TwoWords(s, i, "action", "item", true), Lit(s, i, "task", true)], e => LabelRest(s, e))
  }

  /** After the label ending at e: `[:]\s*([^.!?]+)`. */
  function LabelRest(s: string, e: nat): Option<string> {
    var c :- Lit(s, e, ":", true);
    OptSpacedRest(s, c)
  }

  function ActionLabel(s: string): (r: Option<string>)
    ensures r.Some? ==> r.value != [] && NoTerminator(r.value)
  {
    Search(s, 0, i => ActionLabelAt(s, i))
  }

  // ---------------------------------------------------------------------
  // Strategy 3: (the\s+)?([A-Za-z]+\s+team|marketing|development|sales)
  //             \s+(needs?\s+to|should|must)\s+([^.!?]+), ignoring case
  // ---------------------------------------------------------------------

  /** `[A-Za-z]+\s+team` at p */
  function LettersThenTeam(s: string, p: nat): (e: Option<nat>)
    ensures e.Some? ==> p < e.value <= |s|
  {
    if p >= |s| then None
    else
      var a := RunEnd(s, p, IsLetter);
      if a == p then None
      else
        var b :- Spaces(s, a);
        Lit(s, b, "team", true)
  }

  /** The alternatives of group 2, in the written order. */
  function TeamEnds(s: string, p: nat): seq<Option<nat>> {
    [LettersThenTeam(s, p), Lit(s, p, "marketing", true), Lit(s, p, "development", true), Lit(s, p, "sales", true)]
  }

  /** `\s+(needs?\s+to|should|must)\s+([^.!?]+)` at q: group 4 (the action). */
  function DutyRest(s: string, q: nat): (r: Option<string>)
    ensures r.Some? ==> r.value != [] && NoTerminator(r.value)
  {
    var v :- Spaces(s, q);
    FirstMatch([TwoWords(s, v, "needs", "to", true), TwoWords(s, v, "need", "to", true),
                Lit(s, v, "should", true), Lit(s, v, "must", true)],
               c => SpacedRest(s, c))
  }

  /** Group 2 as s[p..q], then the rest of the pattern from q: groups 2 (the team) and 4 (the action). */
  function TeamThenDuty(s: string, p: nat, q: nat): (r: Option<(string, string)>)
    ensures r.Some? ==> r.value.0 != [] && r.value.1 != [] && NoTerminator(r.value.1)
  {
    if p < q <= |s| then
      var d :- DutyRest(s, q);
      Some((s[p..q], d))
    else None
  }

  /** Group 2 starting at p, then the rest of the pattern. */
  function TeamFrom(s: string, p: nat): (r: Option<(string, string)>)
    ensures r.Some? ==> r.value.0 != [] && r.value.1 != [] && NoTerminator(r.value.1)
  {
    FirstMatch(TeamEnds(s, p), q => TeamThenDuty(s, p, q))
  }

  /** Strategy 3 at position i; the optional `(the\s+)?` is greedy, so it is tried present first. */
  function TeamDutyAt(s: string, i: nat): (r: Option<(string, string)>)
    ensures r.Some? ==> r.value.0 != [] && r.value.1 != [] && NoTerminator(r.value.1)
  {
    FirstMatch([WordThenSpaces(s, i, "the"), Some(i)], p => TeamFrom(s, p))
  }

  function TeamDuty(s: string): (r: Option<(string, string)>)
    ensures r.Some? ==> r.value.0 != [] && r.value.1 != [] && NoTerminator(r.value.1)
  {
    Search(s, 0, i => TeamDutyAt(s, i))
  }

  // ---------------------------------------------------------------------
  // The six deadline patterns, each ignoring case
  // ---------------------------------------------------------------------

  /** The group that starts at p and ends at the end q of an alternative. */
  function GroupTo(s: string, p: nat, q: nat): Option<string> {
    if p <= q <= |s| then Some(s[p..q]) else None
  }

  /** The weekday alternatives of the first deadline pattern, in the written order. */
  const Weekdays: seq<string> := ["friday", "monday", "tuesday", "wednesday", "thursday", "saturday", "sunday"]

  /** `by\s+(friday|monday|tuesday|wednesday|thursday|saturday|sunday)` at i: the group is a weekday in any case. */
  function ByWeekdayAt(s: string, i: nat): (r: Option<string>)
    ensures r.Some? ==> Lower(r.value) in Weekdays
  {
    var p :- WordThenSpaces(s, i, "by");
    var ends := seq(|Weekdays|, k requires 0 <= k < |Weekdays| => Lit(s, p, Weekdays[k], true));
    FirstMatch(ends, q => GroupTo(s, p, q))
  }

  /** `\w+` at f, as the end of a group that started at p */
  function WordRunGroup(s: string, p: nat, f: nat): Option<string>
    requires p <= f <= |s|
  {
    var g := RunEnd(s, f, IsWordChar);
    if g == f then None else Some(s[p..g])
  }

  /** `by\s+(next\s+\w+)` at i: the group is "next" in any case, whitespace, then more. */
  function ByNextAt(s: string, i: nat): (r: Option<string>)
    ensures r.Some? ==> |r.value| > 5 && Lower(r.value[..4]) == "next" && IsSpace(r.value[4])
  {
    var p :- WordThenSpaces(s, i, "by");
    var e :- Lit(s, p, "next", true);
    var f :- Spaces(s, e);
    WordRunGroup(s, p, f)
  }

  /** `by\s+(end\s+of\s+\w+)` at i: the group is "end" in any case, whitespace, then more. */
  function ByEndOfAt(s: string, i: nat): (r: Option<string>)
    ensures r.Some? ==> |r.value| > 4 && Lower(r.value[..3]) == "end" && IsSpace(r.value[3])
  {
    var p :- WordThenSpaces(s, i, "by");
    var e :- TwoWords(s, p, "end", "of", true);
    var f :- Spaces(s, e);
    WordRunGroup(s, p, f)
  }

  /** `by\s+(tomorrow|today)` at i: the group is "tomorrow" or "today" in any case. */
  function ByTomorrowAt(s: string, i: nat): (r: Option<string>)
    ensures r.Some? ==> Lower(r.value) == "tomorrow" || Lower(r.value) == "today"
  {
    var p :- WordThenSpaces(s, i, "by");
    FirstMatch([Lit(s, p, "tomorrow", true), Lit(s, p, "today", true)], q => GroupTo(s, p, q))
  }

  /** `before\s+([^.!?]+)` at i */
  function BeforeAt(s: string, i: nat): Option<string> {
    var e :- Lit(s, i, "before", true);
    SpacedRest(s, e)
  }

  /** `due\s+([^.!?]+)` at i */
  function DueAt(s: string, i: nat): Option<string> {
    var e :- Lit(s, i, "due", true);
    SpacedRest(s, e)
  }

  function ByWeekday(s: string): (r: Option<string>)
    ensures r.Some? ==> Lower(r.value) in Weekdays
  {
    Search(s, 0, i => ByWeekdayAt(s, i))
  }

  function ByNext(s: string): (r: Option<string>)
    ensures r.Some? ==> |r.value| > 5 && Lower(r.value[..4]) == "next" && IsSpace(r.value[4])
  {
    Search(s, 0, i => ByNextAt(s, i))
  }

  function ByEndOf(s: string): (r: Option<string>)
    ensures r.Some? ==> |r.value| > 4 && Lower(r.value[..3]) == "end" && IsSpace(r.value[3])
  {
    Search(s, 0, i => ByEndOfAt(s, i))
  }

  function ByTomorrow(s: string): (r: Option<string>)
    ensures r.Some? ==> Lower(r.value) == "tomorrow" || Lower(r.value) == "today"
  {
    Search(s, 0, i => ByTomorrowAt(s, i))
  }

  /** The first group of each deadline pattern searched over the sentence, in the listed order. */
  function DeadlineGroups(s: string): (gs: seq<Option<string>>)
    ensures |gs| == 6
    ensures gs[0].Some? ==> Lower(gs[0].value) in Weekdays
    ensures gs[1].Some? ==> |gs[1].value| > 5 && Lower(gs[1].value[..4]) == "next" && IsSpace(gs[1].value[4])
    ensures gs[2].Some? ==> |gs[2].value| > 4 && Lower(gs[2].value[..3]) == "end" && IsSpace(gs[2].value[3])
    ensures gs[3].Some? ==> Lower(gs[3].value) == "tomorrow" || Lower(gs[3].value) == "today"
    ensures gs[4].Some? ==> gs[4].value != [] && NoTerminator(gs[4].value)
    ensures gs[5].Some? ==> gs[5].value != [] && NoTerminator(gs[5].value)
  {
    [ByWeekday(s), ByNext(s), ByEndOf(s), ByTomorrow(s),
     Search(s, 0, i => BeforeAt(s, i)), Search(s, 0, i => DueAt(s, i))]
  }
}
