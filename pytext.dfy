/**
 * The Python string operations the pipeline is built from: `str.isspace`,
 * `str.split()`, `' '.join`, `str.strip`, `str.lower`, `str.capitalize`,
 * `str.isupper` and `str.isalpha`.
 *
 * Whitespace is exactly the set `str.isspace()` accepts (which is also what
 * `\s` means in Python's `re` for str patterns). Case mapping and the letter
 * classes cover ASCII only.
 */
module PyText {

  /** `c.isspace()`, equivalently `re.match(r'\s', c)`. */
  predicate IsSpace(c: char) {
    var n := c as int;
    n == 0x20 || 0x09 <= n <= 0x0D || 0x1C <= n <= 0x1F || n == 0x85 || n == 0xA0
    || n == 0x1680 || 0x2000 <= n <= 0x200A || n == 0x2028 || n == 0x2029
    || n == 0x202F || n == 0x205F || n == 0x3000
  }

  predicate IsUpper(c: char) { 'A' <= c <= 'Z' }
  predicate IsLower(c: char) { 'a' <= c <= 'z' }
  predicate IsLetter(c: char) { IsUpper(c) || IsLower(c) }

  function ToLower(c: char): char {
    if IsUpper(c) then (c as int + 32) as char else c
  }

  function ToUpper(c: char): char {
    if IsLower(c) then (c as int - 32) as char else c
  }

  predicate NoSpace(w: string) {
    forall i :: 0 <= i < |w| ==> !IsSpace(w[i])
  }

  /** `w.isalpha()`: non-empty and letters only. */
  predicate IsAlpha(w: string) {
    |w| > 0 && forall i :: 0 <= i < |w| ==> IsLetter(w[i])
  }

  /** `s.lower()`: no upper-case letter is left, and nothing but upper-case letters changes. */
  function Lower(s: string): (r: string)
    ensures |r| == |s|
    ensures forall i :: 0 <= i < |s| ==> !IsUpper(r[i]) && (IsUpper(s[i]) || r[i] == s[i])
    ensures forall i :: 0 <= i < |s| && IsUpper(s[i]) ==> IsLower(r[i]) && ToUpper(r[i]) == s[i]
  {
    seq(|s|, i requires 0 <= i < |s| => ToLower(s[i]))
  }

  /** No lower-case first letter and no upper-case letter after it. */
  predicate IsCapitalized(s: string) {
    (s != [] ==> !IsLower(s[0])) && forall k :: 1 <= k < |s| ==> !IsUpper(s[k])
  }

  /** `s.capitalize()`: the first character upper-cased and all the others lower-cased. */
  function Capitalize(s: string): (r: string)
    ensures |r| == |s| && IsCapitalized(r)
    ensures Lower(r) == Lower(s)
  {
    if s == [] then []
    else
      var r := [ToUpper(s[0])] + Lower(s[1..]);
      assert forall i :: 0 <= i < |s| ==> Lower(r)[i] == Lower(s)[i] by {
        forall i | 0 <= i < |s| ensures Lower(r)[i] == Lower(s)[i] {
          if i > 0 { assert r[i] == ToLower(s[i]); }
        }
      }
      r
  }

  /** `s.lstrip()` */
  function LStrip(s: string): (r: string)
    ensures |r| <= |s|
    ensures r == [] || !IsSpace(r[0])
    decreases |s|
  {
    if s != [] && IsSpace(s[0]) then LStrip(s[1..]) else s
  }

  /** Left-stripping removes leading whitespace and nothing else: what is left is the rest of `s`. */
  lemma {:induction false} LStripParts(s: string)
    ensures var r := LStrip(s);
            && r == s[|s| - |r|..]
            && forall i :: 0 <= i < |s| - |r| ==> IsSpace(s[i])
    decreases |s|
  {
    if s != [] && IsSpace(s[0]) {
      LStripParts(s[1..]);
      var r := LStrip(s);
      forall i | 1 <= i < |s| - |r| ensures IsSpace(s[i]) {
        assert s[i] == s[1..][i - 1];
      }
    }
  }

  /** `s.rstrip()`: the prefix of `s` that is left once its trailing whitespace is gone. */
  function RStrip(s: string): (r: string)
    ensures |r| <= |s| && r == s[..|r|]
    ensures r == [] || !IsSpace(r[|r| - 1])
    ensures forall i :: |r| <= i < |s| ==> IsSpace(s[i])
    decreases |s|
  {
    if s != [] && IsSpace(s[|s| - 1]) then RStrip(s[..|s| - 1]) else s
  }

  /**
   * `s.strip()`: `s` is a run of whitespace, then `r`, then a run of
   * whitespace, and `r` neither starts nor ends with whitespace.
   */
  function Strip(s: string): (r: string)
    ensures |r| <= |s|
    ensures r == [] || (!IsSpace(r[0]) && !IsSpace(r[|r| - 1]))
    ensures var a := |s| - |LStrip(s)|;
            && a + |r| <= |s| && r == s[a..a + |r|]
            && (forall i :: 0 <= i < a ==> IsSpace(s[i]))
            && (forall i :: a + |r| <= i < |s| ==> IsSpace(s[i]))
  {
    StripParts(s);
    RStrip(LStrip(s))
  }

  /** Right-stripping the left-stripped suffix leaves a run of `s` with whitespace on both sides. */
  lemma StripParts(s: string)
    ensures var t := LStrip(s);
            var r := RStrip(t);
            var a := |s| - |t|;
            && a + |r| <= |s| && r == s[a..a + |r|]
            && (forall i :: 0 <= i < a ==> IsSpace(s[i]))
            && (forall i :: a + |r| <= i < |s| ==> IsSpace(s[i]))
  {
    var t := LStrip(s);
    var r := RStrip(t);
    var a := |s| - |t|;
    LStripParts(s);
    assert r == t[..|r|] && t == s[a..];
    forall i | a + |r| <= i < |s| ensures IsSpace(s[i]) {
      assert s[i] == t[i - a];
    }
  }

  /** The leading run of non-space characters of `s`. */
  function Word(s: string): (w: string)
    ensures |w| <= |s| && NoSpace(w)
    ensures s != [] && !IsSpace(s[0]) ==> |w| >= 1
  {
    if s == [] || IsSpace(s[0]) then [] else [s[0]] + Word(s[1..])
  }

  /** `s.split()`: the maximal runs of non-space characters, in order. */
  function Split(s: string): (ws: seq<string>)
    decreases |s|
  {
    var t := LStrip(s);
    if t == [] then []
    else
      var w := Word(t);
      [w] + Split(t[|w|..])
  }

  /** `s.split()` is empty exactly when `s` is all whitespace. */
  lemma SplitEmpty(s: string)
    ensures Split(s) == [] <==> forall i :: 0 <= i < |s| ==> IsSpace(s[i])
  {
    var t := LStrip(s);
    LStripParts(s);
    if t != [] {
      assert s[|s| - |t|] == t[0];
    }
  }

  lemma {:induction false} SplitWords(s: string)
    ensures AreWords(Split(s))
    decreases |s|
  {
    var t := LStrip(s);
    if t != [] {
      var w := Word(t);
      SplitWords(t[|w|..]);
    }
  }

  /** The number of characters of all the words together. */
  function TotalLength(ws: seq<string>): nat {
    if ws == [] then 0 else |ws[0]| + TotalLength(ws[1..])
  }

  /** `' '.join(ws)`: the words with one separator between each two of them. */
  function Join(ws: seq<string>): (r: string)
    ensures ws != [] ==> |r| == TotalLength(ws) + |ws| - 1
  {
    if ws == [] then []
    else if |ws| == 1 then ws[0]
    else ws[0] + " " + Join(ws[1..])
  }

  predicate AreWords(ws: seq<string>) {
    forall k :: 0 <= k < |ws| ==> ws[k] != [] && NoSpace(ws[k])
  }

  lemma {:induction false} WordOfPrefix(w: string, rest: string)
    requires NoSpace(w)
    requires rest == [] || IsSpace(rest[0])
    ensures Word(w + rest) == w
  {
    if w != [] {
      assert (w + rest)[1..] == w[1..] + rest;
      WordOfPrefix(w[1..], rest);
    }
  }

  lemma SplitSkipsSpace(x: string)
    ensures Split(" " + x) == Split(x)
  {
    assert (" " + x)[1..] == x;
  }

  lemma SplitWordThen(w: string, rest: string)
    requires w != [] && NoSpace(w)
    requires rest == [] || IsSpace(rest[0])
    ensures Split(w + rest) == [w] + Split(rest)
  {
    var j := w + rest;
    assert j[0] == w[0];
    assert LStrip(j) == j;
    WordOfPrefix(w, rest);
    assert j[|w|..] == rest;
  }

  /** Joining words with single spaces and splitting again gives the same words back. */
  lemma {:induction false} SplitJoin(ws: seq<string>)
    requires AreWords(ws)
    ensures Split(Join(ws)) == ws
  {
    if |ws| == 1 {
      SplitWordThen(ws[0], []);
      assert ws[0] + [] == ws[0];
    } else if |ws| > 1 {
      var rest := Join(ws[1..]);
      assert Join(ws) == ws[0] + (" " + rest);
      SplitWordThen(ws[0], " " + rest);
      SplitSkipsSpace(rest);
      SplitJoin(ws[1..]);
      assert ws == [ws[0]] + ws[1..];
    }
  }

  /**
   * `s.split()` as one scan from left to right: `cur` is the word being read
   * and `done` the words finished so far; whitespace ends the current word.
   */
  function SplitScan(s: string, cur: string, done: seq<string>): seq<string>
    decreases |s|
  {
    if s == [] then (if cur == [] then done else done + [cur])
    else if IsSpace(s[0]) then SplitScan(s[1..], [], if cur == [] then done else done + [cur])
    else SplitScan(s[1..], cur + [s[0]], done)
  }

  lemma {:induction false} SplitScanFrom(s: string, cur: string, done: seq<string>)
    requires NoSpace(cur)
    ensures SplitScan(s, cur, done) == done + Split(cur + s)
    decreases |s|
  {
    if s == [] {
      assert cur + s == cur;
      if cur != [] {
        SplitWordThen(cur, []);
        assert cur + [] == cur;
      }
    } else if IsSpace(s[0]) {
      var done' := if cur == [] then done else done + [cur];
      SplitScanFrom(s[1..], [], done');
      assert [] + s[1..] == s[1..];
      assert Split(s) == Split(s[1..]);
      if cur != [] {
        SplitWordThen(cur, s);
      } else {
        assert cur + s == s;
      }
    } else {
      SplitScanFrom(s[1..], cur + [s[0]], done);
      assert (cur + [s[0]]) + s[1..] == cur + s;
    }
  }

  /** `s.split()` gives exactly the words the left-to-right scan finds, for every `s`. */
  lemma SplitByScan(s: string)
    ensures Split(s) == SplitScan(s, [], [])
  {
    SplitScanFrom(s, [], []);
    assert [] + s == s;
  }

  /** Lower-casing keeps whitespace where it is: a character is whitespace exactly when its lower case is. */
  lemma LowerKeepsSpace(s: string)
    ensures forall i :: 0 <= i < |s| ==> (IsSpace(Lower(s)[i]) <==> IsSpace(s[i]))
  {
  }

  lemma {:induction false} LowerLStrip(s: string)
    ensures LStrip(Lower(s)) == Lower(LStrip(s))
    decreases |s|
  {
    LowerKeepsSpace(s);
    if s != [] && IsSpace(s[0]) {
      assert Lower(s)[1..] == Lower(s[1..]);
      LowerLStrip(s[1..]);
    }
  }

  lemma {:induction false} LowerRStrip(s: string)
    ensures RStrip(Lower(s)) == Lower(RStrip(s))
    decreases |s|
  {
    LowerKeepsSpace(s);
    if s != [] && IsSpace(s[|s| - 1]) {
      assert Lower(s)[..|s| - 1] == Lower(s[..|s| - 1]);
      LowerRStrip(s[..|s| - 1]);
    }
  }

  /** Lower-casing and stripping commute: `s.lower().strip() == s.strip().lower()`. */
  lemma LowerStrip(s: string)
    ensures Strip(Lower(s)) == Lower(Strip(s))
  {
    LowerLStrip(s);
    LowerRStrip(LStrip(s));
  }
}
