/**
 * The rule-based action-item extractor: the three strategies of
 * `_extract_from_sentence`, assignee resolution (`_extract_person_from_sentence`),
 * deadline resolution (`_extract_deadline_from_text`), and the sentence loop
 * of `extract_action_items` followed by deduplication.
 *
 * The spaCy pipeline is the injected Tagger. The helpers of the source tag the
 * sentence again on every call; the tagger is deterministic, so the model
 * tags each kept sentence once and hands its entities to the helpers.
 */
module Extraction {
  import opened Wrappers
  import opened PyText
  import opened Patterns
  import opened Items
  import opened Deduplication

  /** Sentences with fewer words than this are skipped. */
  const MinSentenceWords := 5

  /** Capitalized words that are never taken for an assignee. */
  const StopWords: seq<string> := ["The", "This", "That", "Team", "Friday", "Monday", "Tuesday",
                                   "Wednesday", "Thursday", "Saturday", "Sunday"]

  /** The first element of xs that satisfies p. */
  function FirstWhere<T>(xs: seq<T>, p: T -> bool): (r: Option<T>)
    ensures forall k :: 0 <= k < |xs| && p(xs[k]) && (forall j :: 0 <= j < k ==> !p(xs[j])) ==> r == Some(xs[k])
    ensures (forall k :: 0 <= k < |xs| ==> !p(xs[k])) ==> r == None
  {
    if xs == [] then None
    else if p(xs[0]) then Some(xs[0])
    else
      var r := FirstWhere(xs[1..], p);
      assert forall k :: 1 <= k < |xs| ==> xs[k] == xs[1..][k - 1];
      r
  }

  // ---------------------------------------------------------------------
  // Assignee resolution
  // ---------------------------------------------------------------------

  /** A PERSON entity whose text has at most two words. */
  predicate IsShortPerson(e: Entity) {
    e.kind == "PERSON" && |Split(e.text)| <= 2
  }

  /** A word taken for a name: upper-case first letter, longer than two, alphabetic, not a stop word. */
  predicate IsNameLike(w: string) {
    |w| > 2 && IsUpper(w[0]) && IsAlpha(w) && w !in StopWords
  }

  /**
   * `_extract_person_from_sentence`: the first PERSON entity of at most two
   * words; else the first word of the sentence that looks like a name; else "".
   */
  function ExtractPerson(sentence: string, ents: seq<Entity>): (r: string)
    ensures forall k :: 0 <= k < |ents| && IsShortPerson(ents[k]) && (forall j :: 0 <= j < k ==> !IsShortPerson(ents[j]))
                        ==> r == ents[k].text
    ensures (forall k :: 0 <= k < |ents| ==> !IsShortPerson(ents[k])) ==>
              var ws := Split(sentence);
              && (forall k :: 0 <= k < |ws| && IsNameLike(ws[k]) && (forall j :: 0 <= j < k ==> !IsNameLike(ws[j]))
                              ==> r == ws[k])
              && ((forall k :: 0 <= k < |ws| ==> !IsNameLike(ws[k])) ==> r == "")
  {
    match FirstWhere(ents, IsShortPerson)
    case Some(e) => e.text
    case None =>
      match FirstWhere(Split(sentence), IsNameLike)
      case Some(w) => w
      case None => ""
  }

  // ---------------------------------------------------------------------
  // Deadline resolution
  // ---------------------------------------------------------------------

  predicate IsDate(e: Entity) {
    e.kind == "DATE"
  }

  /**
   * `_extract_deadline_from_text`: the text of the first DATE entity; else the
   * stripped group of the first of the six deadline patterns that matches
   * somewhere in the sentence; else None.
   */
  function ExtractDeadline(sentence: string, ents: seq<Entity>): (r: Option<string>)
    ensures forall k :: 0 <= k < |ents| && IsDate(ents[k]) && (forall j :: 0 <= j < k ==> !IsDate(ents[j]))
                        ==> r == Some(ents[k].text)
    ensures (forall k :: 0 <= k < |ents| ==> !IsDate(ents[k])) ==>
              var gs := DeadlineGroups(sentence);
              && (forall k :: 0 <= k < |gs| && gs[k].Some? && (forall j :: 0 <= j < k ==> gs[j].None?)
                              ==> r == Some(Strip(gs[k].value)))
              && ((forall k :: 0 <= k < |gs| ==> gs[k].None?) ==> r == None)
  {
    match FirstWhere(ents, IsDate)
    case Some(e) => Some(e.text)
    case None =>
      match FirstSome(DeadlineGroups(sentence))
      case Some(g) => Some(Strip(g))
      case None => None
  }

  // ---------------------------------------------------------------------
  // The three strategies of _extract_from_sentence
  // ---------------------------------------------------------------------

  /** Strategy 1: a capitalized name followed by will/should/must/need(s) to/has to. */
  function PersonModalItem(sentence: string, ents: seq<Entity>): (r: Option<ActionItem>)
    ensures r.Some? <==> PersonModal(sentence).Some?
    ensures r.Some? ==> && r.value.assignee == PersonModal(sentence).value.0
                        && Lower(r.value.description) == Lower(Strip(PersonModal(sentence).value.1)) && IsCapitalized(r.value.description)
                        && r.value.deadline == ExtractDeadline(sentence, ents)
                        && r.value.status == Pending
  {
    var (person, action) :- PersonModal(sentence);
    Some(ActionItem(Capitalize(Strip(action)), person, ExtractDeadline(sentence, ents), Pending))
  }

  /** Strategy 2: an "action item:" or "task:" label. */
  function LabelItem(sentence: string, ents: seq<Entity>): (r: Option<ActionItem>)
    ensures r.Some? <==> ActionLabel(sentence).Some?
    ensures r.Some? ==> && r.value.assignee == ExtractPerson(sentence, ents)
                        && Lower(r.value.description) == Lower(Strip(ActionLabel(sentence).value)) && IsCapitalized(r.value.description)
                        && r.value.deadline == ExtractDeadline(sentence, ents)
                        && r.value.status == Pending
  {
    var action :- ActionLabel(sentence);
    Some(ActionItem(Capitalize(Strip(action)), ExtractPerson(sentence, ents), ExtractDeadline(sentence, ents), Pending))
  }

  /** Strategy 3: a team or department followed by need(s) to/should/must. */
  function TeamItem(sentence: string, ents: seq<Entity>): (r: Option<ActionItem>)
    ensures r.Some? <==> TeamDuty(sentence).Some?
    ensures r.Some? ==> && Lower(r.value.assignee) == Lower(TeamDuty(sentence).value.0) && IsCapitalized(r.value.assignee)
                        && Lower(r.value.description) == Lower(Strip(TeamDuty(sentence).value.1)) && IsCapitalized(r.value.description)
                        && r.value.deadline == ExtractDeadline(sentence, ents)
                        && r.value.status == Pending
  {
    var (team, action) :- TeamDuty(sentence);
    Some(ActionItem(Capitalize(Strip(action)), Capitalize(team), ExtractDeadline(sentence, ents), Pending))
  }

  /**
   * `_extract_from_sentence`: the strategies are tried in order (a named
   * person with a modal verb, an action label, a team with a duty) and the
   * first one whose pattern matches gives the item.
   */
  function ExtractFromSentence(sentence: string, ents: seq<Entity>): (r: Option<ActionItem>)
    ensures r.None? <==> PersonModal(sentence).None? && ActionLabel(sentence).None? && TeamDuty(sentence).None?
    ensures PersonModal(sentence).Some? ==> r == PersonModalItem(sentence, ents)
    ensures PersonModal(sentence).None? && ActionLabel(sentence).Some? ==> r == LabelItem(sentence, ents)
    ensures PersonModal(sentence).None? && ActionLabel(sentence).None? ==> r == TeamItem(sentence, ents)
  {
    var first := PersonModalItem(sentence, ents);
    if first.Some? then first
    else
      var second := LabelItem(sentence, ents);
      if second.Some? then second else TeamItem(sentence, ents)
  }

  /**
   * Every item the extractor builds is pending, carries the sentence's
   * deadline, and has a capitalized description with no sentence terminator.
   */
  lemma ExtractedItemShape(sentence: string, ents: seq<Entity>)
    ensures var r := ExtractFromSentence(sentence, ents);
            r.Some? ==> && r.value.status == Pending
                        && r.value.deadline == ExtractDeadline(sentence, ents)
                        && IsCapitalized(r.value.description)
                        && NoTerminator(r.value.description)
  {
    var r := ExtractFromSentence(sentence, ents);
    if r.Some? {
      var action: string;
      if PersonModal(sentence).Some? {
        action := PersonModal(sentence).value.1;
      } else if ActionLabel(sentence).Some? {
        action := ActionLabel(sentence).value;
      } else {
        action := TeamDuty(sentence).value.1;
      }
      assert r.value.description == Capitalize(Strip(action));
      StripNoTerminator(action);
      CapitalizeNoTerminator(Strip(action));
    }
  }

  lemma StripNoTerminator(s: string)
    requires NoTerminator(s)
    ensures NoTerminator(Strip(s))
  {
    StripParts(s);
  }

  lemma CapitalizeNoTerminator(s: string)
    requires NoTerminator(s)
    ensures NoTerminator(Capitalize(s))
  {
    var c := Capitalize(s);
    forall k | 0 <= k < |c| ensures !IsTerminator(c[k]) {
      if k == 0 { assert c[0] == ToUpper(s[0]); } else { assert c[k] == ToLower(s[k]); }
    }
  }

  // ---------------------------------------------------------------------
  // The sentence loop and the whole extraction
  // ---------------------------------------------------------------------

  /** What one sentence of the tagged text contributes. */
  datatype Step = Raises | Skipped | NoMatch | Found(item: ActionItem)

  /** A sentence with fewer than five words once stripped. */
  predicate IsShortSentence(sent: string) {
    |Split(Strip(sent))| < MinSentenceWords
  }

  /**
   * One turn of the sentence loop: strip, skip a short sentence, tag the rest
   * (which may raise) and run the strategies on it.
   */
  function SentenceStep(tagger: Tagger, sent: string): (r: Step)
    ensures r.Skipped? <==> IsShortSentence(sent)
    ensures r.Raises? <==> !IsShortSentence(sent) && tagger(Strip(sent)).None?
    ensures r.Found? <==> && !IsShortSentence(sent) && tagger(Strip(sent)).Some?
                          && ExtractFromSentence(Strip(sent), tagger(Strip(sent)).value.ents).Some?
    ensures r.Found? ==> r.item == ExtractFromSentence(Strip(sent), tagger(Strip(sent)).value.ents).value
    ensures r.Found? ==> && r.item.status == Pending
                         && IsCapitalized(r.item.description)
                         && NoTerminator(r.item.description)
  {
    var sentence := Strip(sent);
    if IsShortSentence(sent) then Skipped
    else
      match tagger(sentence)
      case None => Raises
      case Some(doc) =>
        ExtractedItemShape(sentence, doc.ents);
        match ExtractFromSentence(sentence, doc.ents)
        case None => NoMatch
        case Some(item) => Found(item)
  }

  function StepOf(tagger: Tagger): string -> Step {
    sent => SentenceStep(tagger, sent)
  }

  /**
   * The items the sentences contribute, in sentence order, before
   * deduplication; None once one sentence raises.
   */
  function CollectItems(step: string -> Step, sents: seq<string>): (r: Option<seq<ActionItem>>)
    ensures r.Some? ==> |r.value| <= |sents|
  {
    if sents == [] then Some([])
    else
      var items :- CollectItems(step, sents[..|sents| - 1]);
      match step(sents[|sents| - 1])
      case Raises => None
      case Found(item) => Some(items + [item])
      case _ => Some(items)
  }

  /**
   * `extract_action_items(text)`: `nlp` is what loading the spaCy model yields
   * (None when loading raises). Any exception gives the empty list; otherwise
   * the collected items are deduplicated by their normalised description.
   */
  function ActionItemsOf(nlp: Option<Tagger>, text: string): (r: seq<ActionItem>)
    ensures nlp.None? || nlp.value(text).None? ==> r == []
    ensures nlp.Some? && nlp.value(text).Some? ==>
              var sents := nlp.value(text).value.sents;
              (exists i :: 0 <= i < |sents| && SentenceStep(nlp.value, sents[i]).Raises?) ==> r == []
  {
    match nlp
    case None => []
    case Some(tagger) =>
      match tagger(text)
      case None => []
      case Some(doc) =>
        CollectItemsFails(StepOf(tagger), doc.sents);
        match CollectItems(StepOf(tagger), doc.sents)
        case None => []
        case Some(items) => Dedup(items, ItemKey)
  }

  /** The number of sentences that are not skipped. */
  function NotSkipped(step: string -> Step, sents: seq<string>): nat {
    if sents == [] then 0
    else NotSkipped(step, sents[..|sents| - 1]) + (if step(sents[|sents| - 1]).Skipped? then 0 else 1)
  }

  /** Collecting fails exactly when one of the sentences raises. */
  lemma {:induction false} CollectItemsFails(step: string -> Step, sents: seq<string>)
    ensures CollectItems(step, sents).None? <==> exists i :: 0 <= i < |sents| && step(sents[i]).Raises?
  {
    if sents != [] {
      var init := sents[..|sents| - 1];
      CollectItemsFails(step, init);
      if exists i :: 0 <= i < |init| && step(init[i]).Raises? {
        var i :| 0 <= i < |init| && step(init[i]).Raises?;
        assert sents[i] == init[i];
      }
      if exists i :: 0 <= i < |sents| && step(sents[i]).Raises? {
        var i :| 0 <= i < |sents| && step(sents[i]).Raises?;
        if i < |init| { assert init[i] == sents[i]; }
      }
    }
  }

  /**
   * Each sentence that is not skipped contributes at most one item, and
   * every item is the one some sentence's step found.
   */
  lemma {:induction false} CollectedItems(step: string -> Step, sents: seq<string>)
    requires CollectItems(step, sents).Some?
    ensures var items := CollectItems(step, sents).value;
            && |items| <= NotSkipped(step, sents)
            && forall it :: it in items ==> exists i :: 0 <= i < |sents| && step(sents[i]) == Found(it)
  {
    if sents != [] {
      var init := sents[..|sents| - 1];
      CollectedItems(step, init);
      forall i | 0 <= i < |init| ensures sents[i] == init[i] { }
    }
  }

  /** A sentence that is skipped or matches nothing contributes nothing, wherever it stands. */
  lemma {:induction false} QuietSentenceIgnored(step: string -> Step, before: seq<string>, quiet: string, after: seq<string>)
    requires step(quiet).Skipped? || step(quiet).NoMatch?
    ensures CollectItems(step, before + [quiet] + after) == CollectItems(step, before + after)
  {
    if after == [] {
      assert (before + [quiet])[..|before|] == before;
      assert before + [quiet] + [] == before + [quiet];
      assert before + [] == before;
    } else {
      var init := after[..|after| - 1];
      QuietSentenceIgnored(step, before, quiet, init);
      assert (before + [quiet] + after)[..|before| + |after|] == before + [quiet] + init;
      assert (before + after)[..|before| + |after| - 1] == before + init;
    }
  }

  /** Inserting a sentence of fewer than five words anywhere changes nothing. */
  lemma ShortSentenceIgnored(nlp: Option<Tagger>, text: string, text': string, before: seq<string>, short: string, after: seq<string>)
    requires nlp.Some? && nlp.value(text).Some? && nlp.value(text').Some?
    requires nlp.value(text).value.sents == before + [short] + after
    requires nlp.value(text').value.sents == before + after
    requires IsShortSentence(short)
    ensures ActionItemsOf(nlp, text) == ActionItemsOf(nlp, text')
  {
    QuietSentenceIgnored(StepOf(nlp.value), before, short, after);
  }

  /**
   * The extracted list has no two items with the same normalised
   * description, every item is pending, and every item is what the
   * strategies found in one long sentence of the text.
   */
  lemma ActionItemsDistinctAndPending(nlp: Option<Tagger>, text: string)
    ensures var r := ActionItemsOf(nlp, text);
            && DistinctKeys(r, ItemKey)
            && (forall it :: it in r ==> it.status == Pending)
            && (r != [] ==> nlp.Some? && nlp.value(text).Some?)
            && (nlp.Some? && nlp.value(text).Some? ==>
                 var sents := nlp.value(text).value.sents;
                 && |r| <= NotSkipped(StepOf(nlp.value), sents)
                 && forall it :: it in r ==>
                      exists i :: 0 <= i < |sents| && !IsShortSentence(sents[i]) && SentenceStep(nlp.value, sents[i]) == Found(it))
  {
    if nlp.Some? && nlp.value(text).Some? {
      var tagger := nlp.value;
      var sents := tagger(text).value.sents;
      if CollectItems(StepOf(tagger), sents).Some? {
        var items := CollectItems(StepOf(tagger), sents).value;
        CollectedItems(StepOf(tagger), sents);
        DedupDistinctKeys(items, ItemKey);
        DedupKeepsFirstOfEachKey(items, ItemKey);
        SelectFrom(items, FirstMask(items, ItemKey));
        var r := Dedup(items, ItemKey);
        forall it | it in r
          ensures it.status == Pending
          ensures exists i :: 0 <= i < |sents| && !IsShortSentence(sents[i]) && SentenceStep(tagger, sents[i]) == Found(it)
        {
          var i :| 0 <= i < |sents| && StepOf(tagger)(sents[i]) == Found(it);
          assert SentenceStep(tagger, sents[i]) == Found(it);
        }
      }
    }
  }

  /** Every item that a sentence's step finds is collected. */
  lemma {:induction false} CollectedAllFound(step: string -> Step, sents: seq<string>)
    requires CollectItems(step, sents).Some?
    ensures forall i :: 0 <= i < |sents| && step(sents[i]).Found? ==> step(sents[i]).item in CollectItems(step, sents).value
  {
    if sents != [] {
      var init := sents[..|sents| - 1];
      CollectedAllFound(step, init);
      forall i | 0 <= i < |init| ensures sents[i] == init[i] { }
    }
  }

  /**
   * After collecting and deduplicating, a key is kept exactly when some
   * sentence's step found an item with that key.
   */
  lemma CollectedKeys(step: string -> Step, sents: seq<string>, key: ActionItem -> string)
    requires CollectItems(step, sents).Some?
    ensures forall k :: k in KeySet(Dedup(CollectItems(step, sents).value, key), key) <==>
                          exists i :: 0 <= i < |sents| && step(sents[i]).Found? && key(step(sents[i]).item) == k
  {
    var items := CollectItems(step, sents).value;
    DedupKeySet(items, key);
    CollectedItems(step, sents);
    CollectedAllFound(step, sents);
    forall k ensures k in KeySet(items, key) <==>
                       exists i :: 0 <= i < |sents| && step(sents[i]).Found? && key(step(sents[i]).item) == k
    {
      InKeySet(items, key, k);
      if k in KeySet(items, key) {
        var j :| 0 <= j < |items| && key(items[j]) == k;
        assert items[j] in items;
        var i :| 0 <= i < |sents| && step(sents[i]) == Found(items[j]);
      }
      if exists i :: 0 <= i < |sents| && step(sents[i]).Found? && key(step(sents[i]).item) == k {
        var i :| 0 <= i < |sents| && step(sents[i]).Found? && key(step(sents[i]).item) == k;
        var j :| 0 <= j < |items| && items[j] == step(sents[i]).item;
      }
    }
  }

  /**
   * When no sentence raises, the extracted list keeps exactly the keys of
   * the items found: a normalised description is in the result exactly when
   * a sentence of five words or more yields an item with it.
   */
  lemma ActionItemsKeys(nlp: Option<Tagger>, text: string)
    requires nlp.Some? && nlp.value(text).Some?
    requires var sents := nlp.value(text).value.sents;
             forall i :: 0 <= i < |sents| ==> !SentenceStep(nlp.value, sents[i]).Raises?
    ensures var sents := nlp.value(text).value.sents;
            var r := ActionItemsOf(nlp, text);
            forall k :: k in KeySet(r, ItemKey) <==>
              exists i :: 0 <= i < |sents| && SentenceStep(nlp.value, sents[i]).Found?
                          && ItemKey(SentenceStep(nlp.value, sents[i]).item) == k
  {
    var tagger := nlp.value;
    var sents := tagger(text).value.sents;
    CollectItemsFails(StepOf(tagger), sents);
    CollectedKeys(StepOf(tagger), sents, ItemKey);
  }

  /** The item a sentence's step finds, as a list of zero or one items. */
  function FoundOf(step: string -> Step, sent: string): seq<ActionItem> {
    if step(sent).Found? then [step(sent).item] else []
  }

  /** The found items read from the first sentence to the last, one per sentence whose step finds one. */
  function FoundItems(step: string -> Step, sents: seq<string>): seq<ActionItem> {
    if sents == [] then [] else FoundOf(step, sents[0]) + FoundItems(step, sents[1..])
  }

  lemma {:induction false} FoundItemsSnoc(step: string -> Step, sents: seq<string>, last: string)
    ensures FoundItems(step, sents + [last]) == FoundItems(step, sents) + FoundOf(step, last)
  {
    if sents == [] {
      assert [] + [last] == [last];
    } else {
      assert (sents + [last])[1..] == sents[1..] + [last];
      FoundItemsSnoc(step, sents[1..], last);
    }
  }

  /**
   * When no sentence raises, the loop collects exactly the found items, in
   * sentence order: one per sentence whose step finds an item.
   */
  lemma {:induction false} CollectItemsInOrder(step: string -> Step, sents: seq<string>)
    requires forall i :: 0 <= i < |sents| ==> !step(sents[i]).Raises?
    ensures CollectItems(step, sents) == Some(FoundItems(step, sents))
  {
    if sents != [] {
      var init := sents[..|sents| - 1];
      forall i | 0 <= i < |init| ensures !step(init[i]).Raises? {
        assert init[i] == sents[i];
      }
      var last := sents[|sents| - 1];
      CollectItemsInOrder(step, init);
      FoundItemsSnoc(step, init, last);
      assert init + [last] == sents;
      assert !step(last).Raises?;
      if step(last).Found? {
        assert FoundOf(step, last) == [step(last).item];
      } else {
        assert FoundOf(step, last) == [];
        assert FoundItems(step, init) + [] == FoundItems(step, init);
      }
    }
  }

  /**
   * When no sentence raises, the extracted list is the found items in
   * sentence order with only the first item of each key kept: for a repeated
   * description the item of the earliest sentence survives.
   */
  lemma ActionItemsInOrder(nlp: Option<Tagger>, text: string)
    requires nlp.Some? && nlp.value(text).Some?
    requires var sents := nlp.value(text).value.sents;
             forall i :: 0 <= i < |sents| ==> !SentenceStep(nlp.value, sents[i]).Raises?
    ensures var found := FoundItems(StepOf(nlp.value), nlp.value(text).value.sents);
            ActionItemsOf(nlp, text) == Select(found, FirstMask(found, ItemKey))
  {
    var step := StepOf(nlp.value);
    var sents := nlp.value(text).value.sents;
    CollectItemsInOrder(step, sents);
    DedupKeepsFirstOfEachKey(FoundItems(step, sents), ItemKey);
  }

  /** What Select keeps comes from its input. */
  lemma {:induction false} SelectFrom<T>(xs: seq<T>, keep: seq<bool>)
    requires |keep| == |xs|
    ensures forall x :: x in Select(xs, keep) ==> x in xs
  {
    if xs != [] {
      SelectFrom(xs[..|xs| - 1], keep[..|keep| - 1]);
      forall x | x in xs[..|xs| - 1] ensures x in xs { }
    }
  }
}
