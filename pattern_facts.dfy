/**
 * What the hand-coded matchers find in sentences of the shapes the
 * extractor is written for: a sentence that starts with a capitalized name
 * and "will", and a sentence that starts with a "Task:" label.
 */
module PatternFacts {
  import opened Wrappers
  import opened PyText
  import opened Patterns
  import opened Items
  import opened Extraction

  /** A greedy run stops exactly where the class first fails. */
  lemma RunEndIs(s: string, i: nat, inClass: char -> bool, e: nat)
    requires i <= e <= |s|
    requires forall k :: i <= k < e ==> inClass(s[k])
    requires e < |s| ==> !inClass(s[e])
    ensures RunEnd(s, i, inClass) == e
  {
  }

  /** The action clause ends at the first terminator or at the end of the sentence. */
  predicate EndsClause(tail: string) {
    tail == [] || IsTerminator(tail[0])
  }

  /** The group `([^.!?]+)` after one space is the whole action clause. */
  lemma SpacedRestIsClause(s: string, i: nat, action: string, tail: string)
    requires action != [] && NoTerminator(action) && !IsSpace(action[0]) && EndsClause(tail)
    requires i < |s| && s[i..] == " " + action + tail
    ensures SpacedRest(s, i) == Some(action)
  {
    var e := i + 1;
    assert s[e] == action[0];
    RunEndIs(s, i, IsSpace, e);
    var m := e + |action|;
    forall k | e <= k < m ensures NotTerminator(s[k]) {
      assert s[k] == action[k - e];
    }
    if m < |s| {
      assert s[m] == tail[0];
    }
    RunEndIs(s, e, NotTerminator, m);
    assert s[e..m] == action;
  }

  /** A capitalized name followed by a space: group 1 of strategy 1 is the name, and the run ends there. */
  lemma NameRun(s: string, name: string)
    requires IsCapitalizedName(name) && |name| < |s| && s[..|name|] == name && s[|name|] == ' '
    ensures IsUpper(s[0]) && RunEnd(s, 1, IsLower) == |name|
  {
    forall k | 1 <= k < |name| ensures IsLower(s[k]) {
      assert s[k] == s[..|name|][k];
    }
    RunEndIs(s, 1, IsLower, |name|);
    assert s[0] == s[..|name|][0];
  }

  /** " will <action>" after the name: the space run, the modal "will", then the clause. */
  lemma WillThenClause(s: string, n: nat, person: string, action: string, tail: string)
    requires action != [] && NoTerminator(action) && !IsSpace(action[0]) && EndsClause(tail)
    requires n <= |s| && s[n..] == " will " + action + tail
    ensures Spaces(s, n) == Some(n + 1)
    ensures ModalEnds(s, n + 1)[0] == Some(n + 5)
    ensures ModalRest(s, person, n + 5) == Some((person, action))
  {
    assert s[n] == ' ' && s[n + 1] == 'w';
    RunEndIs(s, n, IsSpace, n + 1);
    assert s[n + 1..n + 5] == s[n..][1..5] == "will";
    assert s[n + 5..] == s[n..][5..] == " " + action + tail;
    SpacedRestIsClause(s, n + 5, action, tail);
  }

  /**
   * "Name will <action>" at the start of a sentence is matched by strategy 1
   * with the name as group 1 and the whole clause as group 3.
   */
  lemma PersonWillAtStart(name: string, action: string, tail: string)
    requires IsCapitalizedName(name)
    requires action != [] && NoTerminator(action) && !IsSpace(action[0]) && EndsClause(tail)
    ensures PersonModal(name + " will " + action + tail) == Some((name, action))
  {
    var rest := " will " + action + tail;
    var s := name + rest;
    assert s == name + " will " + action + tail;
    var n := |name|;
    assert s[..n] == name && s[n..] == rest;
    NameRun(s, name);
    WillThenClause(s, n, name, action, tail);
    assert PersonModalAt(s, 0) == Some((name, action));
  }

  /** Such a sentence gives the item of strategy 1: the name is the assignee. */
  lemma PersonWillItem(name: string, action: string, tail: string, ents: seq<Entity>)
    requires IsCapitalizedName(name)
    requires action != [] && NoTerminator(action) && !IsSpace(action[0]) && EndsClause(tail)
    ensures var sentence := name + " will " + action + tail;
            ExtractFromSentence(sentence, ents)
              == Some(ActionItem(Capitalize(Strip(action)), name, ExtractDeadline(sentence, ents), Pending))
  {
    PersonWillAtStart(name, action, tail);
  }

  /**
   * "Task: <action>" at the start of a sentence, whatever the case of the
   * label, is matched by strategy 2 with the whole clause as its group.
   */
  lemma TaskLabelAtStart(tag: string, action: string, tail: string)
    requires |tag| == 4 && Lower(tag) == "task"
    requires action != [] && NoTerminator(action) && !IsSpace(action[0]) && EndsClause(tail)
    ensures ActionLabel(tag + ": " + action + tail) == Some(action)
  {
    var s := tag + ": " + action + tail;
    assert s[..4] == tag;
    assert TwoWords(s, 0, "action", "item", true).None? by {
      if 6 <= |s| {
        assert Lower(s[0..6])[1] == ToLower(s[1]) == ToLower(tag[1]) == Lower(tag)[1] == 'a';
      }
    }
    assert Lit(s, 0, "task", true) == Some(4);
    assert s[4] == ':';
    assert s[4..5] == [s[4]];
    assert Lower(s[4..5])[0] == ToLower(':') == ':';
    assert Lower(s[4..5]) == ":";
    assert Lit(s, 4, ":", true) == Some(5);
    assert s[5] == ' ' && s[6] == action[0];
    RunEndIs(s, 5, IsSpace, 6);
    var m := 6 + |action|;
    forall k | 6 <= k < m ensures NotTerminator(s[k]) {
      assert s[k] == action[k - 6];
    }
    if m < |s| {
      assert s[m] == tail[0];
    }
    RunEndIs(s, 6, NotTerminator, m);
    assert s[6..m] == action;
    assert OptSpacedRest(s, 5) == Some(action);
    assert LabelRest(s, 4) == Some(action);
    var ends := [TwoWords(s, 0, "action", "item", true), Lit(s, 0, "task", true)];
    assert ends[0].None? && ends[1] == Some(4);
    assert ends[1..] == [Some(4)];
    assert ActionLabelAt(s, 0) == Some(action);
  }

  /** `Search` gives the pattern's match at p when p is the first position where it matches. */
  lemma SearchFinds<T>(s: string, at: nat -> Option<T>, p: nat)
    requires p <= |s| && at(p).Some?
    requires forall q :: 0 <= q < p ==> at(q).None?
    ensures Search(s, 0, at) == at(p)
  {
  }

  /** "by Friday" at n: the first deadline pattern matches there with the group "Friday". */
  lemma ByFridayAt(s: string, n: nat)
    requires n + 9 <= |s| && s[n..n + 9] == "by Friday"
    ensures ByWeekdayAt(s, n) == Some("Friday")
  {
    assert s[n..n + 2] == s[n..n + 9][..2] == "by";
    assert Lower(s[n..n + 2]) == "by";
    assert s[n + 2] == ' ' && s[n + 3] == 'F';
    RunEndIs(s, n + 2, IsSpace, n + 3);
    assert WordThenSpaces(s, n, "by") == Some(n + 3);
    assert s[n + 3..n + 9] == s[n..n + 9][3..] == "Friday";
    assert Lower(s[n + 3..n + 9]) == "friday";
    assert Lit(s, n + 3, "friday", true) == Some(n + 9);
  }

  /**
   * "... by Friday": when no "b" or "B" comes before it, the weekday group of
   * the deadline patterns is "Friday", as written in the sentence.
   */
  lemma ByFridayDeadline(pre: string, post: string)
    requires forall k :: 0 <= k < |pre| ==> ToLower(pre[k]) != 'b'
    ensures DeadlineGroups(pre + "by Friday" + post)[0] == Some("Friday")
  {
    var s := pre + "by Friday" + post;
    var n := |pre|;
    assert s[n..n + 9] == "by Friday";
    ByFridayAt(s, n);
    forall q | 0 <= q < n ensures ByWeekdayAt(s, q).None? {
      assert s[q] == pre[q];
      if q + 2 <= |s| {
        assert Lower(s[q..q + 2])[0] == ToLower(s[q]);
      }
    }
    SearchFinds(s, i => ByWeekdayAt(s, i), n);
  }

  /** With no DATE entity, a weekday group gives the deadline, stripped. */
  lemma WeekdayDeadline(s: string, ents: seq<Entity>)
    requires forall k :: 0 <= k < |ents| ==> !IsDate(ents[k])
    requires ByWeekday(s).Some?
    ensures ExtractDeadline(s, ents) == Some(Strip(ByWeekday(s).value))
  {
    assert DeadlineGroups(s)[0] == ByWeekday(s);
  }

  /** With no DATE entity, the deadline extracted from "... by Friday" is "Friday". */
  lemma FridayDeadline(pre: string, post: string, ents: seq<Entity>)
    requires forall k :: 0 <= k < |pre| ==> ToLower(pre[k]) != 'b'
    requires forall k :: 0 <= k < |ents| ==> !IsDate(ents[k])
    ensures ExtractDeadline(pre + "by Friday" + post, ents) == Some("Friday")
  {
    var s := pre + "by Friday" + post;
    assert DeadlineGroups(s)[0] == Some("Friday") by {
      ByFridayDeadline(pre, post);
    }
    assert Strip("Friday") == "Friday" by {
      StripUnspaced("Friday");
    }
    WeekdayDeadline(s, ents);
  }

  /** A string that neither starts nor ends with whitespace is its own `strip()`. */
  lemma StripUnspaced(w: string)
    requires w != [] && !IsSpace(w[0]) && !IsSpace(w[|w| - 1])
    ensures Strip(w) == w
  {
    assert LStrip(w) == w;
  }
}
