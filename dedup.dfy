/**
 * The deduplication pass of `extract_action_items`: items are visited in
 * order, a set holds the keys seen so far, and an item is kept only when its
 * key is not in that set yet. The pass is stated for any key function; the
 * extractor uses `ItemKey`, the lower-cased and stripped description.
 */
module Deduplication {
  import opened PyText
  import opened Items

  /**
   * `item['description'].lower().strip()`: the lower-cased description is a
   * run of whitespace, then the key, then a run of whitespace; the key has no
   * upper-case letter and no whitespace at either end.
   */
  function ItemKey(item: ActionItem): (k: string)
    ensures var d := Lower(item.description);
            var a := |d| - |LStrip(d)|;
            && a + |k| <= |d| && k == d[a..a + |k|]
            && (forall i :: 0 <= i < a ==> IsSpace(d[i]))
            && (forall i :: a + |k| <= i < |d| ==> IsSpace(d[i]))
    ensures k == [] || (!IsSpace(k[0]) && !IsSpace(k[|k| - 1]))
    ensures forall i :: 0 <= i < |k| ==> !IsUpper(k[i])
  {
    var lowered := Lower(item.description);
    var k := Strip(lowered);
    assert forall i :: 0 <= i < |k| ==> k[i] == lowered[|lowered| - |LStrip(lowered)| + i];
    k
  }

  /**
   * The key ignores letter case and surrounding whitespace: it is the
   * stripped description lower-cased, so two descriptions that agree once
   * stripped and lower-cased have the same key.
   */
  lemma SameKey(x: ActionItem, y: ActionItem)
    requires Lower(Strip(x.description)) == Lower(Strip(y.description))
    ensures ItemKey(x) == Lower(Strip(x.description))
    ensures ItemKey(x) == ItemKey(y)
  {
    LowerStrip(x.description);
    LowerStrip(y.description);
  }

  /** The keys of the items, as a set. */
  function KeySet<T>(xs: seq<T>, key: T -> string): set<string> {
    if xs == [] then {} else KeySet(xs[..|xs| - 1], key) + {key(xs[|xs| - 1])}
  }

  /** The kept items after visiting xs in order, each kept when no kept item has its key. */
  function Dedup<T>(xs: seq<T>, key: T -> string): (r: seq<T>)
    ensures |r| <= |xs|
    ensures forall x :: x in r ==> x in xs
  {
    if xs == [] then []
    else
      var kept := Dedup(xs[..|xs| - 1], key);
      var x := xs[|xs| - 1];
      if key(x) in KeySet(kept, key) then kept else kept + [x]
  }

  /** No earlier item of xs has the key of item i. */
  predicate FirstOfKey<T>(xs: seq<T>, key: T -> string, i: nat)
    requires i < |xs|
  {
    forall j :: 0 <= j < i ==> key(xs[j]) != key(xs[i])
  }

  /** For each position of xs, whether the item there is the first one with its key. */
  function FirstMask<T>(xs: seq<T>, key: T -> string): (m: seq<bool>)
    ensures |m| == |xs|
  {
    seq(|xs|, i requires 0 <= i < |xs| => FirstOfKey(xs, key, i))
  }

  /** The items of xs whose position the mask marks, in their order in xs. */
  function Select<T>(xs: seq<T>, keep: seq<bool>): (r: seq<T>)
    requires |keep| == |xs|
    ensures |r| <= |xs|
  {
    if xs == [] then []
    else Select(xs[..|xs| - 1], keep[..|keep| - 1]) + (if keep[|keep| - 1] then [xs[|xs| - 1]] else [])
  }

  predicate DistinctKeys<T>(xs: seq<T>, key: T -> string) {
    forall i, j :: 0 <= i < j < |xs| ==> key(xs[i]) != key(xs[j])
  }

  lemma {:induction false} InKeySet<T>(xs: seq<T>, key: T -> string, k: string)
    ensures k in KeySet(xs, key) <==> exists i :: 0 <= i < |xs| && key(xs[i]) == k
  {
    if xs != [] {
      var init := xs[..|xs| - 1];
      InKeySet(init, key, k);
      if k in KeySet(init, key) {
        var i :| 0 <= i < |init| && key(init[i]) == k;
        assert xs[i] == init[i];
      }
      if exists i :: 0 <= i < |xs| && key(xs[i]) == k {
        var i :| 0 <= i < |xs| && key(xs[i]) == k;
        if i < |init| { assert init[i] == xs[i]; }
      }
    }
  }

  /** Deduplication drops no key: the kept items have exactly the keys of the input. */
  lemma {:induction false} DedupKeySet<T>(xs: seq<T>, key: T -> string)
    ensures KeySet(Dedup(xs, key), key) == KeySet(xs, key)
  {
    if xs != [] {
      DedupKeySet(xs[..|xs| - 1], key);
      var kept := Dedup(xs[..|xs| - 1], key);
      var x := xs[|xs| - 1];
      if key(x) !in KeySet(kept, key) {
        assert (kept + [x])[..|kept|] == kept;
      }
    }
  }

  lemma FirstMaskOfInit<T>(xs: seq<T>, key: T -> string)
    requires xs != []
    ensures FirstMask(xs, key)[..|xs| - 1] == FirstMask(xs[..|xs| - 1], key)
  {
    var init := xs[..|xs| - 1];
    forall i | 0 <= i < |init| ensures FirstMask(xs, key)[i] == FirstMask(init, key)[i] {
      assert forall j :: 0 <= j <= i ==> xs[j] == init[j];
    }
  }

  lemma FirstMaskOfLast<T>(xs: seq<T>, key: T -> string)
    requires xs != []
    ensures FirstMask(xs, key)[|xs| - 1] <==> key(xs[|xs| - 1]) !in KeySet(xs[..|xs| - 1], key)
  {
    var init, x := xs[..|xs| - 1], xs[|xs| - 1];
    InKeySet(init, key, key(x));
    if key(x) in KeySet(init, key) {
      var j :| 0 <= j < |init| && key(init[j]) == key(x);
      assert key(xs[j]) == key(x);
    } else {
      forall j | 0 <= j < |init| ensures key(xs[j]) != key(x) {
        assert xs[j] == init[j];
      }
    }
  }

  /**
   * Deduplication is the stable filter that keeps exactly the first item of
   * each key: the result is a subsequence of the input, in input order, and
   * the item kept for a key is the first one seen with it.
   */
  lemma {:induction false} DedupKeepsFirstOfEachKey<T>(xs: seq<T>, key: T -> string)
    ensures Dedup(xs, key) == Select(xs, FirstMask(xs, key))
  {
    if xs != [] {
      var init := xs[..|xs| - 1];
      DedupKeepsFirstOfEachKey(init, key);
      FirstMaskOfInit(xs, key);
      FirstMaskOfLast(xs, key);
      DedupKeySet(init, key);
    }
  }

  /** No two kept items share a key. */
  lemma {:induction false} DedupDistinctKeys<T>(xs: seq<T>, key: T -> string)
    ensures DistinctKeys(Dedup(xs, key), key)
  {
    if xs != [] {
      var kept := Dedup(xs[..|xs| - 1], key);
      var x := xs[|xs| - 1];
      DedupDistinctKeys(xs[..|xs| - 1], key);
      if key(x) !in KeySet(kept, key) {
        forall i | 0 <= i < |kept| ensures key(kept[i]) != key(x) {
          InKeySet(kept, key, key(x));
        }
      }
    }
  }

  /** A list whose keys are already distinct is left as it is. */
  lemma {:induction false} DedupOfDistinct<T>(ys: seq<T>, key: T -> string)
    requires DistinctKeys(ys, key)
    ensures Dedup(ys, key) == ys
  {
    if ys != [] {
      var init, y := ys[..|ys| - 1], ys[|ys| - 1];
      assert DistinctKeys(init, key) by {
        forall i, j | 0 <= i < j < |init| ensures key(init[i]) != key(init[j]) {
          assert init[i] == ys[i] && init[j] == ys[j];
        }
      }
      DedupOfDistinct(init, key);
      InKeySet(init, key, key(y));
      assert key(y) !in KeySet(init, key) by {
        forall i | 0 <= i < |init| ensures key(init[i]) != key(y) {
          assert init[i] == ys[i];
        }
      }
      assert init + [y] == ys;
    }
  }

  /** Deduplicating twice is deduplicating once. */
  lemma DedupIdempotent<T>(xs: seq<T>, key: T -> string)
    ensures Dedup(Dedup(xs, key), key) == Dedup(xs, key)
  {
    DedupDistinctKeys(xs, key);
    DedupOfDistinct(Dedup(xs, key), key);
  }
}
