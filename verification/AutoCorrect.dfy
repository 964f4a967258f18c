/** The spelling filter: a greedy walk over two words and a search by length.

    The key distances are a parameter. All that is known of them is that a letter has distance
    zero to itself and to no other letter.
 */
module AutoCorrect {
  import opened Basics

  type Grid = (nat, nat) -> nat

  const FOREIGN: nat := 0xff   // kMaxDistance
  const SWAP: nat := 1         // kSwapCost
  const GAP: nat := 2          // kGapCost

  ghost predicate Keyboard(grid: Grid) {
    forall a: nat, b: nat :: a < 26 && b < 26 ==> (grid(a, b) == 0 <==> a == b)
  }

  /** The place of a letter in the alphabet whatever its case, or -1. */
  function Letter(c: char): int {
    if 'a' <= c <= 'z' then c as int - 'a' as int
    else if 'A' <= c <= 'Z' then c as int - 'A' as int
    else -1
  }

  function LetterDistance(grid: Grid, x: char, y: char): nat {
    if Letter(x) < 0 || Letter(y) < 0 then FOREIGN else grid(Letter(x), Letter(y))
  }

  predicate Same(grid: Grid, x: char, y: char) {
    LetterDistance(grid, x, y) == 0
  }

  // ---- keys, said without the places of letters ----

  /** The character is on the key with this number: a small letter or its capital. */
  predicate OnKey(c: char, key: nat) {
    key < 26 && (c as int == 'a' as int + key || c as int == 'A' as int + key)
  }

  ghost predicate OffKeys(c: char) {
    forall key: nat :: !OnKey(c, key)
  }

  /** Characters are as far apart as their keys, whatever their case; one that is on no key is far from everything. */
  lemma DistanceOfKeys(grid: Grid, x: char, y: char)
    ensures forall i: nat, j: nat :: OnKey(x, i) && OnKey(y, j) ==> LetterDistance(grid, x, y) == grid(i, j)
    ensures OffKeys(x) || OffKeys(y) ==> LetterDistance(grid, x, y) == FOREIGN
    ensures OffKeys(x) || exists i: nat :: OnKey(x, i)
  {
    KeyOf(x);
    KeyOf(y);
  }

  lemma KeyOf(c: char)
    ensures forall key: nat :: OnKey(c, key) <==> Letter(c) == key
    ensures Letter(c) < 26 && (Letter(c) < 0 <==> OffKeys(c))
  {
    if Letter(c) >= 0 {
      assert OnKey(c, Letter(c));
    }
  }

  /** Both are on one key. */
  ghost predicate OneKey(x: char, y: char) {
    exists key: nat :: OnKey(x, key) && OnKey(y, key)
  }

  lemma OneKeyIs(x: char, y: char)
    ensures OneKey(x, y) <==> Letter(x) == Letter(y) >= 0
  {
    KeyOf(x);
    KeyOf(y);
    if Letter(x) == Letter(y) >= 0 {
      assert OnKey(x, Letter(x)) && OnKey(y, Letter(x));
    }
  }

  /** Letter by letter the same key. */
  ghost predicate SameKeys(a: string, b: string) {
    |a| == |b| && forall k :: 0 <= k < |a| ==> OneKey(a[k], b[k])
  }

  // ---- edit scripts ----

  /** Steps that turn one word into another, from the left. */
  datatype Edit = Substitute | Swap | Insert | Delete

  predicate Applies(grid: Grid, script: seq<Edit>, n: string, w: string)
    decreases |script|
  {
    if script == [] then n == [] && w == []
    else
      match script[0]
      case Substitute => n != [] && w != [] && Applies(grid, script[1..], n[1..], w[1..])
      case Swap =>
        |n| >= 2 && |w| >= 2 && Same(grid, n[0], w[1]) && Same(grid, n[1], w[0])
        && Applies(grid, script[1..], n[2..], w[2..])
      case Insert => w != [] && Applies(grid, script[1..], n, w[1..])
      case Delete => n != [] && Applies(grid, script[1..], n[1..], w)
  }

  function Cost(grid: Grid, script: seq<Edit>, n: string, w: string): nat
    requires Applies(grid, script, n, w)
    decreases |script|
  {
    if script == [] then 0
    else
      match script[0]
      case Substitute => LetterDistance(grid, n[0], w[0]) + Cost(grid, script[1..], n[1..], w[1..])
      case Swap => SWAP + Cost(grid, script[1..], n[2..], w[2..])
      case Insert => GAP + Cost(grid, script[1..], n, w[1..])
      case Delete => GAP + Cost(grid, script[1..], n[1..], w)
  }

  function Gaps(script: seq<Edit>): nat {
    if script == [] then 0 else Gaps(script[1..]) + if script[0].Insert? || script[0].Delete? then 1 else 0
  }

  function Difference(a: nat, b: nat): nat {
    if a < b then b - a else a - b
  }

  /** The optimal weighted distance with adjacent swaps. */
  function Optimum(grid: Grid, n: string, w: string): nat
    decreases |n| + |w|
  {
    if n == [] then GAP * |w|
    else if w == [] then GAP * |n|
    else
      var plain := Min(LetterDistance(grid, n[0], w[0]) + Optimum(grid, n[1..], w[1..]),
                       Min(GAP + Optimum(grid, n, w[1..]), GAP + Optimum(grid, n[1..], w)));
      if |n| >= 2 && |w| >= 2 && Same(grid, n[0], w[1]) && Same(grid, n[1], w[0])
      then Min(plain, SWAP + Optimum(grid, n[2..], w[2..]))
      else plain
  }

  lemma {:induction false} NoScriptIsCheaper(grid: Grid, script: seq<Edit>, n: string, w: string)
    requires Applies(grid, script, n, w)
    ensures Optimum(grid, n, w) <= Cost(grid, script, n, w)
    decreases |script|
  {
    if script != [] {
      match script[0] {
        case Substitute => NoScriptIsCheaper(grid, script[1..], n[1..], w[1..]);
        case Swap => NoScriptIsCheaper(grid, script[1..], n[2..], w[2..]);
        case Insert =>
          NoScriptIsCheaper(grid, script[1..], n, w[1..]);
          OneMore(grid, n, w);
        case Delete =>
          NoScriptIsCheaper(grid, script[1..], n[1..], w);
          OneMore(grid, n, w);
      }
    }
  }

  /** With one word used up, a gap for every letter left. */
  lemma OneMore(grid: Grid, n: string, w: string)
    ensures w != [] ==> Optimum(grid, n, w) <= GAP + Optimum(grid, n, w[1..])
    ensures n != [] ==> Optimum(grid, n, w) <= GAP + Optimum(grid, n[1..], w)
  {
  }

  lemma {:induction false} OptimumIsReached(grid: Grid, n: string, w: string) returns (script: seq<Edit>)
    ensures Applies(grid, script, n, w) && Cost(grid, script, n, w) == Optimum(grid, n, w)
    decreases |n| + |w|
  {
    if n == [] && w == [] {
      return [];
    }
    var rest;
    if n == [] {
      rest := OptimumIsReached(grid, n, w[1..]);
      script := [Insert] + rest;
    } else if w == [] {
      rest := OptimumIsReached(grid, n[1..], w);
      script := [Delete] + rest;
    } else if Optimum(grid, n, w) == LetterDistance(grid, n[0], w[0]) + Optimum(grid, n[1..], w[1..]) {
      rest := OptimumIsReached(grid, n[1..], w[1..]);
      script := [Substitute] + rest;
    } else if Optimum(grid, n, w) == GAP + Optimum(grid, n, w[1..]) {
      rest := OptimumIsReached(grid, n, w[1..]);
      script := [Insert] + rest;
    } else if Optimum(grid, n, w) == GAP + Optimum(grid, n[1..], w) {
      rest := OptimumIsReached(grid, n[1..], w);
      script := [Delete] + rest;
    } else {
      rest := OptimumIsReached(grid, n[2..], w[2..]);
      script := [Swap] + rest;
    }
    assert script[1..] == rest;
  }

  // ---- the greedy walk ----

  /** The edits that the walk chooses. */
  function Walk(grid: Grid, n: string, w: string): seq<Edit>
    decreases |n| + |w|
  {
    if n == [] && w == [] then []
    else if n == [] then [Insert] + Walk(grid, n, w[1..])
    else if w == [] then [Delete] + Walk(grid, n[1..], w)
    else if Same(grid, n[0], w[0]) then [Substitute] + Walk(grid, n[1..], w[1..])
    else if |n| >= 2 && |w| >= 2 && Same(grid, n[0], w[1]) && Same(grid, n[1], w[0]) then
      [Swap] + Walk(grid, n[2..], w[2..])
    else if |w| > |n| && Same(grid, n[0], w[1]) then [Insert] + Walk(grid, n, w[1..])
    else if |n| > |w| && Same(grid, n[1], w[0]) then [Delete] + Walk(grid, n[1..], w)
    else [Substitute] + Walk(grid, n[1..], w[1..])
  }

  /** The walk is an edit script, and it uses no more gaps than the lengths demand. */
  lemma {:induction false} WalkApplies(grid: Grid, n: string, w: string)
    ensures Applies(grid, Walk(grid, n, w), n, w)
    ensures Gaps(Walk(grid, n, w)) == Difference(|n|, |w|)
    decreases |n| + |w|
  {
    var script := Walk(grid, n, w);
    if script != [] {
      match script[0] {
        case Substitute =>
          WalkApplies(grid, n[1..], w[1..]);
          assert script[1..] == Walk(grid, n[1..], w[1..]);
        case Swap =>
          WalkApplies(grid, n[2..], w[2..]);
          assert script[1..] == Walk(grid, n[2..], w[2..]);
        case Insert =>
          WalkApplies(grid, n, w[1..]);
          assert script[1..] == Walk(grid, n, w[1..]);
        case Delete =>
          WalkApplies(grid, n[1..], w);
          assert script[1..] == Walk(grid, n[1..], w);
      }
    }
  }

  /** What the walk charges. */
  function Score(grid: Grid, n: string, w: string): nat {
    WalkApplies(grid, n, w);
    Cost(grid, Walk(grid, n, w), n, w)
  }

  lemma GreedyIsSound(grid: Grid, n: string, w: string)
    ensures Score(grid, n, w) >= Optimum(grid, n, w)
    ensures Score(grid, n, w) >= GAP * Difference(|n|, |w|)
  {
    WalkApplies(grid, n, w);
    NoScriptIsCheaper(grid, Walk(grid, n, w), n, w);
    GapsCost(grid, Walk(grid, n, w), n, w);
  }

  lemma {:induction false} GapsCost(grid: Grid, script: seq<Edit>, n: string, w: string)
    requires Applies(grid, script, n, w)
    ensures Cost(grid, script, n, w) >= GAP * Gaps(script)
    decreases |script|
  {
    if script != [] {
      match script[0] {
        case Substitute => GapsCost(grid, script[1..], n[1..], w[1..]);
        case Swap => GapsCost(grid, script[1..], n[2..], w[2..]);
        case Insert => GapsCost(grid, script[1..], n, w[1..]);
        case Delete => GapsCost(grid, script[1..], n[1..], w);
      }
    }
  }

  /** On a keyboard, of two letters that match one letter in two places one may stand for the other. */
  lemma SameLetters(grid: Grid, x: char, y: char)
    requires Keyboard(grid)
    ensures Same(grid, x, y) <==> Letter(x) == Letter(y) >= 0
  {
  }

  lemma FirstEdit(grid: Grid, script: seq<Edit>, n: string, w: string)
    requires Applies(grid, script, n, w) && Gaps(script) == 0 && n != [] && |n| == |w|
    ensures script != [] && Gaps(script[1..]) == 0 && (script[0].Substitute? || script[0].Swap?)
    ensures script[0].Substitute? ==>
              && Applies(grid, script[1..], n[1..], w[1..])
              && Cost(grid, script, n, w) == LetterDistance(grid, n[0], w[0]) + Cost(grid, script[1..], n[1..], w[1..])
    ensures script[0].Swap? ==>
              && |n| >= 2 && Same(grid, n[0], w[1]) && Same(grid, n[1], w[0])
              && Applies(grid, script[1..], n[2..], w[2..])
              && Cost(grid, script, n, w) == SWAP + Cost(grid, script[1..], n[2..], w[2..])
  {
  }

  /** What the walk charges for words of one length, step by step. */
  lemma ScoreOf(grid: Grid, n: string, w: string)
    requires n != [] && |n| == |w|
    ensures var swaps := |n| >= 2 && Same(grid, n[0], w[1]) && Same(grid, n[1], w[0]);
            Score(grid, n, w) ==
            if !Same(grid, n[0], w[0]) && swaps then SWAP + Score(grid, n[2..], w[2..])
            else LetterDistance(grid, n[0], w[0]) + Score(grid, n[1..], w[1..])
  {
    WalkApplies(grid, n, w);
    var walk := Walk(grid, n, w);
    if walk[0].Swap? {
      assert walk[1..] == Walk(grid, n[2..], w[2..]);
    } else {
      assert walk[1..] == Walk(grid, n[1..], w[1..]);
    }
  }

  /** Of words of one length, no script without gaps is cheaper than the walk. */
  lemma {:induction false} NoGaplessScriptIsCheaper(grid: Grid, script: seq<Edit>, n: string, w: string)
    requires Keyboard(grid) && |n| == |w| && Applies(grid, script, n, w) && Gaps(script) == 0
    ensures Score(grid, n, w) <= Cost(grid, script, n, w)
    decreases |n|
  {
    if n == [] {
      WalkApplies(grid, n, w);
      return;
    }
    hide Score, Applies, Cost;
    FirstEdit(grid, script, n, w);
    ScoreOf(grid, n, w);
    SameLetters(grid, n[0], w[0]);
    var rest := script[1..];
    if script[0].Swap? {
      NoGaplessScriptIsCheaper(grid, rest, n[2..], w[2..]);
      if Same(grid, n[0], w[0]) {
        FreeTwice(grid, n, w);
      }
    } else if Same(grid, n[0], w[0]) || |n| < 2 || !Same(grid, n[0], w[1]) || !Same(grid, n[1], w[0]) {
      NoGaplessScriptIsCheaper(grid, rest, n[1..], w[1..]);
    } else {
      FirstEdit(grid, rest, n[1..], w[1..]);
      assert n[1..][1..] == n[2..] && w[1..][1..] == w[2..];
      if rest[0].Substitute? {
        NoGaplessScriptIsCheaper(grid, rest[1..], n[2..], w[2..]);
      } else {
        assert n[1..][2..] == n[3..] && w[1..][2..] == w[3..];
        NoGaplessScriptIsCheaper(grid, rest[1..], n[3..], w[3..]);
        Alternating(grid, n, w);
      }
    }
  }

  /** Two letters that could be swapped though they are the same are matched for nothing. */
  lemma FreeTwice(grid: Grid, n: string, w: string)
    requires Keyboard(grid) && |n| == |w| >= 2 && Same(grid, n[0], w[0]) && Same(grid, n[0], w[1]) && Same(grid, n[1], w[0])
    ensures Score(grid, n, w) == Score(grid, n[2..], w[2..])
  {
    hide Score;
    SameLetters(grid, n[0], w[0]);
    SameLetters(grid, n[0], w[1]);
    SameLetters(grid, n[1], w[0]);
    SameLetters(grid, n[1], w[1]);
    ScoreOf(grid, n, w);
    ScoreOf(grid, n[1..], w[1..]);
    assert n[1..][1..] == n[2..] && w[1..][1..] == w[2..];
  }

  /** Two letters in turn: a swap at the start costs no more than one later. */
  lemma Alternating(grid: Grid, n: string, w: string)
    requires Keyboard(grid) && |n| == |w| >= 3 && Same(grid, n[0], w[1]) && Same(grid, n[1], w[0])
    requires Same(grid, n[1], w[2]) && Same(grid, n[2], w[1])
    ensures Score(grid, n[2..], w[2..]) <= LetterDistance(grid, n[0], w[0]) + Score(grid, n[3..], w[3..])
    decreases |n|, 0
  {
    SameLetters(grid, n[0], w[1]);
    SameLetters(grid, n[1], w[0]);
    SameLetters(grid, n[1], w[2]);
    SameLetters(grid, n[2], w[1]);
    assert LetterDistance(grid, n[2], w[2]) == LetterDistance(grid, n[0], w[0]);
    var walk := Walk(grid, n[3..], w[3..]);
    WalkApplies(grid, n[3..], w[3..]);
    var script := [Substitute] + walk;
    assert script[1..] == walk && n[2..][1..] == n[3..] && w[2..][1..] == w[3..];
    assert Applies(grid, script, n[2..], w[2..]) && Gaps(script) == 0;
    NoGaplessScriptIsCheaper(grid, script, n[2..], w[2..]);
  }

  /** So for words of one length the greedy cost is optimal exactly when some cheapest script makes no gap. */
  lemma GreedyIsOptimalExactly(grid: Grid, n: string, w: string)
    requires Keyboard(grid) && |n| == |w|
    ensures Score(grid, n, w) == Optimum(grid, n, w) <==>
            exists script :: Applies(grid, script, n, w) && Gaps(script) == 0 && Cost(grid, script, n, w) == Optimum(grid, n, w)
  {
    WalkApplies(grid, n, w);
    GreedyIsSound(grid, n, w);
    if script :| Applies(grid, script, n, w) && Gaps(script) == 0 && Cost(grid, script, n, w) == Optimum(grid, n, w) {
      NoGaplessScriptIsCheaper(grid, script, n, w);
    }
  }

  /** The walk is not optimal: of two words of one length it never makes gaps. */
  lemma GreedyOvershoots(grid: Grid)
    requires Keyboard(grid)
    ensures Score(grid, "1ab", "ab1") > Optimum(grid, "1ab", "ab1")
  {
    var n, w := "1ab", "ab1";
    var walk := Walk(grid, n, w);
    WalkApplies(grid, n, w);
    assert walk[0] == Substitute;
    assert Cost(grid, walk, n, w) >= FOREIGN;
    var script := [Delete, Substitute, Substitute, Insert];
    assert script[1..] == [Substitute, Substitute, Insert] && script[1..][1..] == [Substitute, Insert];
    assert n[1..] == "ab" && n[1..][1..] == "b" && n[1..][1..][1..] == "";
    assert w[1..] == "b1" && w[1..][1..] == "1" && w[1..][1..][1..] == "";
    assert Applies(grid, [Insert], "", "1");
    assert Applies(grid, [Substitute, Insert], "b", "b1") && Cost(grid, [Substitute, Insert], "b", "b1") == GAP;
    assert Applies(grid, script, n, w) && Cost(grid, script, n, w) == 2 * GAP;
    NoScriptIsCheaper(grid, script, n, w);
  }

  // ---- the search ----

  function OfLength(words: seq<string>, length: nat): seq<string> {
    if words == [] then []
    else
      var older, last := OfLength(words[..|words| - 1], length), words[|words| - 1];
      if |last| == length then older + [last] else older
  }

  /** The first word of a list that has this length and this score. */
  function First(grid: Grid, words: seq<string>, n: string, length: nat, score: nat): Option<string> {
    if words == [] then None
    else
      var older, last := First(grid, words[..|words| - 1], n, length, score), words[|words| - 1];
      if older.Some? then older
      else if |last| == length && Score(grid, n, last) == score then Some(last)
      else None
  }

  /** Within the sensitivity and cheapest; of the cheapest, longest; of those, first in the list. */
  ghost predicate Champion(grid: Grid, sensitivity: nat, words: seq<string>, n: string, w: string) {
    && Score(grid, n, w) <= sensitivity
    && (forall v :: v in words && Score(grid, n, v) <= sensitivity ==>
          Score(grid, n, w) < Score(grid, n, v) || (Score(grid, n, w) == Score(grid, n, v) && |w| >= |v|))
    && First(grid, words, n, |w|, Score(grid, n, w)) == Some(w)
  }

  /** What the filter promises for a list of words. */
  ghost predicate Fixes(grid: Grid, sensitivity: nat, words: seq<string>, n: string, fixed: string) {
    if exists v :: v in words && Score(grid, n, v) <= sensitivity
    then Champion(grid, sensitivity, words, n, fixed)
    else fixed == n
  }

  lemma {:induction false} FirstIsThere(grid: Grid, words: seq<string>, n: string, length: nat, score: nat)
    ensures First(grid, words, n, length, score).Some? <==>
              exists w :: w in words && |w| == length && Score(grid, n, w) == score
    ensures First(grid, words, n, length, score).Some? ==>
              var w := First(grid, words, n, length, score).value;
              w in words && |w| == length && Score(grid, n, w) == score
  {
    if words != [] {
      var rest, last := words[..|words| - 1], words[|words| - 1];
      FirstIsThere(grid, rest, n, length, score);
      assert forall w :: w in words <==> w in rest || w == last;
    }
  }

  /** The first find, by its place. */
  lemma {:induction false} FirstPlace(grid: Grid, words: seq<string>, n: string, length: nat, score: nat) returns (k: nat)
    requires First(grid, words, n, length, score).Some?
    ensures k < |words| && First(grid, words, n, length, score) == Some(words[k])
    ensures |words[k]| == length && Score(grid, n, words[k]) == score
    ensures forall j :: 0 <= j < k ==> |words[j]| != length || Score(grid, n, words[j]) != score
  {
    var rest := words[..|words| - 1];
    assert forall j :: 0 <= j < |rest| ==> rest[j] == words[j];
    if First(grid, rest, n, length, score).Some? {
      k := FirstPlace(grid, rest, n, length, score);
    } else {
      k := |words| - 1;
      FirstIsThere(grid, rest, n, length, score);
      forall j | 0 <= j < k ensures |words[j]| != length || Score(grid, n, words[j]) != score {
        assert words[j] in rest;
      }
    }
  }

  /** The word at `k` qualifies, and is better than any other that does: cheaper, or as cheap and longer, or as cheap and as
      long and inserted earlier. */
  ghost predicate BestAt(grid: Grid, sensitivity: nat, words: seq<string>, n: string, k: nat) {
    && k < |words| && Score(grid, n, words[k]) <= sensitivity
    && forall j :: 0 <= j < |words| && j != k && Score(grid, n, words[j]) <= sensitivity ==>
         var mine, other := Score(grid, n, words[k]), Score(grid, n, words[j]);
         mine < other || (mine == other && (|words[k]| > |words[j]| || (|words[k]| == |words[j]| && k < j)))
  }

  lemma FixesByPlace(grid: Grid, sensitivity: nat, words: seq<string>, n: string, fixed: string)
    requires Fixes(grid, sensitivity, words, n, fixed)
    ensures if forall j :: 0 <= j < |words| ==> Score(grid, n, words[j]) > sensitivity then fixed == n
            else exists k: nat :: BestAt(grid, sensitivity, words, n, k) && fixed == words[k]
  {
    if exists v :: v in words && Score(grid, n, v) <= sensitivity {
      var k := FirstPlace(grid, words, n, |fixed|, Score(grid, n, fixed));
      hide Score;
      assert forall j :: 0 <= j < |words| ==> words[j] in words;
      assert BestAt(grid, sensitivity, words, n, k);
      assert Score(grid, n, words[k]) <= sensitivity;
    }
  }

  /** The promise leaves no choice. */
  lemma FixIsUnique(grid: Grid, sensitivity: nat, words: seq<string>, n: string, a: string, b: string)
    requires Fixes(grid, sensitivity, words, n, a) && Fixes(grid, sensitivity, words, n, b)
    ensures a == b
  {
    if exists v :: v in words && Score(grid, n, v) <= sensitivity {
      FirstIsThere(grid, words, n, |a|, Score(grid, n, a));
      FirstIsThere(grid, words, n, |b|, Score(grid, n, b));
    }
  }

  // ---- the search by length agrees with a search of everything ----

  lemma {:induction false} OfLengthMembers(words: seq<string>, length: nat)
    ensures forall w :: w in OfLength(words, length) <==> (w in words && |w| == length)
  {
    if words != [] {
      OfLengthMembers(words[..|words| - 1], length);
      assert forall w :: w in words <==> w in words[..|words| - 1] || w == words[|words| - 1];
    }
  }

  lemma {:induction false} FirstOfLength(grid: Grid, words: seq<string>, n: string, length: nat, score: nat)
    ensures First(grid, OfLength(words, length), n, length, score) == First(grid, words, n, length, score)
  {
    if words != [] {
      var rest, last := words[..|words| - 1], words[|words| - 1];
      FirstOfLength(grid, rest, n, length, score);
      var older := OfLength(rest, length);
      if |last| == length {
        assert (older + [last])[..|older|] == older;
      }
    }
  }

  lemma {:induction false} FirstOfAppended(grid: Grid, a: seq<string>, b: seq<string>, n: string, length: nat, score: nat)
    ensures First(grid, a + b, n, length, score) ==
              if First(grid, a, n, length, score).Some? then First(grid, a, n, length, score)
              else First(grid, b, n, length, score)
  {
    if b == [] {
      assert a + b == a;
    } else {
      var rest := b[..|b| - 1];
      assert (a + b)[..|a + b| - 1] == a + rest;
      FirstOfAppended(grid, a, rest, n, length, score);
    }
  }

  /** The words whose lengths lie in a window, shortest first. */
  function Window(words: seq<string>, from: nat, end: nat): seq<string>
    requires from <= end
    decreases end
  {
    if from == end then [] else Window(words, from, end - 1) + OfLength(words, end - 1)
  }

  lemma {:induction false} WindowMembers(words: seq<string>, from: nat, end: nat)
    requires from <= end
    ensures forall w :: w in Window(words, from, end) <==> (w in words && from <= |w| < end)
    decreases end
  {
    if from < end {
      WindowMembers(words, from, end - 1);
      OfLengthMembers(words, end - 1);
    }
  }

  lemma {:induction false} FirstInWindow(grid: Grid, words: seq<string>, from: nat, end: nat, n: string, length: nat, score: nat)
    requires from <= end && from <= length < end
    ensures First(grid, Window(words, from, end), n, length, score) == First(grid, words, n, length, score)
    decreases end
  {
    var shorter, last := Window(words, from, end - 1), OfLength(words, end - 1);
    FirstOfAppended(grid, shorter, last, n, length, score);
    if length < end - 1 {
      OfLengthMembers(words, end - 1);
      FirstIsNone(grid, last, n, length, score);
      FirstInWindow(grid, words, from, end - 1, n, length, score);
    } else {
      WindowMembers(words, from, end - 1);
      FirstIsNone(grid, shorter, n, length, score);
      FirstOfLength(grid, words, n, length, score);
    }
  }

  lemma {:induction false} FirstIsNone(grid: Grid, words: seq<string>, n: string, length: nat, score: nat)
    requires forall w :: w in words ==> |w| != length
    ensures First(grid, words, n, length, score) == None
  {
    if words != [] {
      FirstIsNone(grid, words[..|words| - 1], n, length, score);
    }
  }

  /** A word outside the window could not have qualified. */
  lemma OutsideNeverQualifies(grid: Grid, sensitivity: nat, n: string, w: string)
    requires Score(grid, n, w) <= sensitivity
    ensures |n| - sensitivity <= |w| <= |n| + sensitivity
  {
    GreedyIsSound(grid, n, w);
  }

  /** Two lists that hold the same qualifying words, and order those of one length alike, agree. */
  lemma ListsAgree(grid: Grid, sensitivity: nat, a: seq<string>, b: seq<string>, n: string, fixed: string)
    requires forall v :: Score(grid, n, v) <= sensitivity ==> (v in a <==> v in b)
    requires var score := Score(grid, n, fixed);
             score <= sensitivity ==> First(grid, a, n, |fixed|, score) == First(grid, b, n, |fixed|, score)
    ensures Fixes(grid, sensitivity, a, n, fixed) <==> Fixes(grid, sensitivity, b, n, fixed)
  {
  }

  lemma QualifyingInWindow(grid: Grid, sensitivity: nat, words: seq<string>, n: string, from: nat, v: string)
    requires from <= |n| && (from == 0 || from <= |n| - sensitivity) && Score(grid, n, v) <= sensitivity
    ensures from <= |v| < |n| + sensitivity + 1
    ensures v in Window(words, from, |n| + sensitivity + 1) <==> v in words
  {
    WindowMembers(words, from, |n| + sensitivity + 1);
    OutsideNeverQualifies(grid, sensitivity, n, v);
  }

  /** Searching the window is searching everything. */
  lemma WindowAgrees(grid: Grid, sensitivity: nat, words: seq<string>, n: string, from: nat, fixed: string)
    requires from <= |n| && (from == 0 || from <= |n| - sensitivity)
    ensures Fixes(grid, sensitivity, Window(words, from, |n| + sensitivity + 1), n, fixed)
            <==> Fixes(grid, sensitivity, words, n, fixed)
  {
    var window := Window(words, from, |n| + sensitivity + 1);
    forall v | Score(grid, n, v) <= sensitivity ensures v in window <==> v in words {
      QualifyingInWindow(grid, sensitivity, words, n, from, v);
    }
    var score := Score(grid, n, fixed);
    if score <= sensitivity {
      QualifyingInWindow(grid, sensitivity, words, n, from, fixed);
      FirstInWindow(grid, words, from, |n| + sensitivity + 1, n, |fixed|, score);
    }
    ListsAgree(grid, sensitivity, window, words, n, fixed);
  }

  // ---- fixing twice ----

  predicate AllLetters(w: string) {
    forall k :: 0 <= k < |w| ==> Letter(w[k]) >= 0
  }

  /** Equal but for the case of letters. */
  predicate SameWord(a: string, b: string) {
    |a| == |b| && forall k :: 0 <= k < |a| ==> Letter(a[k]) == Letter(b[k]) >= 0
  }

  lemma {:induction false} CaseDoesNotMatter(grid: Grid, n: string, a: string, b: string)
    requires SameWord(a, b)
    ensures Score(grid, n, a) == Score(grid, n, b)
    decreases |n| + |a|
  {
    var script := Walk(grid, n, a);
    if script != [] {
      match script[0] {
        case Substitute =>
          CaseDoesNotMatter(grid, n[1..], a[1..], b[1..]);
        case Swap =>
          CaseDoesNotMatter(grid, n[2..], a[2..], b[2..]);
        case Insert =>
          CaseDoesNotMatter(grid, n, a[1..], b[1..]);
        case Delete =>
          CaseDoesNotMatter(grid, n[1..], a, b);
      }
    }
  }

  /** Nothing is charged exactly for a word of letters that differs in case at most. */
  lemma {:induction false} FreeOnlyForItself(grid: Grid, n: string, w: string)
    requires Keyboard(grid)
    ensures Score(grid, n, w) == 0 <==> SameWord(n, w)
    decreases |n| + |w|
  {
    if n != [] && w != [] && Same(grid, n[0], w[0]) {
      FreeOnlyForItself(grid, n[1..], w[1..]);
    }
  }

  lemma SameWordIs(a: string, b: string)
    ensures SameWord(a, b) <==> SameKeys(a, b)
  {
    hide OneKey;
    if |a| == |b| {
      forall k | 0 <= k < |a| ensures Letter(a[k]) == Letter(b[k]) >= 0 <==> OneKey(a[k], b[k]) {
        OneKeyIs(a[k], b[k]);
      }
    }
  }

  /** A word that is in the dictionary but for the case of its letters is found there. */
  lemma KnownWordsAreFound(grid: Grid, sensitivity: nat, words: seq<string>, n: string, fixed: string, v: string)
    requires Keyboard(grid) && Fixes(grid, sensitivity, words, n, fixed) && v in words && SameKeys(n, v)
    ensures fixed in words && SameKeys(n, fixed)
  {
    SameWordIs(n, v);
    SameWordIs(n, fixed);
    FreeOnlyForItself(grid, n, v);
    FreeOnlyForItself(grid, n, fixed);
    FirstIsThere(grid, words, n, |fixed|, Score(grid, n, fixed));
  }

  /** Narrowing a search keeps its first find, if that is still among what is looked for. */
  lemma {:induction false} FirstOfFewer(grid: Grid, words: seq<string>, n: string, score: nat, m: string, fewer: nat, w: string)
    requires First(grid, words, n, |w|, score) == Some(w) && Score(grid, m, w) == fewer
    requires forall v :: v in words && |v| == |w| && Score(grid, m, v) == fewer ==> Score(grid, n, v) == score
    ensures First(grid, words, m, |w|, fewer) == Some(w)
  {
    var rest, last := words[..|words| - 1], words[|words| - 1];
    assert forall v :: v in rest ==> v in words;
    if First(grid, rest, n, |w|, score).Some? {
      FirstOfFewer(grid, rest, n, score, m, fewer, w);
    } else {
      FirstIsThere(grid, rest, n, |w|, score);
      FirstIsThere(grid, rest, m, |w|, fewer);
    }
  }

  /** With a dictionary of letters only, fixing a second time changes nothing. */
  lemma FixingTwice(grid: Grid, sensitivity: nat, words: seq<string>, n: string, once: string, twice: string)
    requires Keyboard(grid) && forall w :: w in words ==> AllLetters(w)
    requires Fixes(grid, sensitivity, words, n, once) && Fixes(grid, sensitivity, words, once, twice)
    ensures once == twice
  {
    if exists v :: v in words && Score(grid, n, v) <= sensitivity {
      FirstIsThere(grid, words, n, |once|, Score(grid, n, once));
      FreeOnlyForItself(grid, once, once);
      FreeOnlyForItself(grid, once, twice);
      forall v | v in words && Score(grid, once, v) == 0 ensures Score(grid, n, v) == Score(grid, n, once) {
        FreeOnlyForItself(grid, once, v);
        CaseDoesNotMatter(grid, n, once, v);
      }
      FirstOfFewer(grid, words, n, Score(grid, n, once), once, 0, once);
    } else {
      FixIsUnique(grid, sensitivity, words, n, once, twice);
    }
  }

  // ---- what a single typing error costs ----

  lemma {:induction false} SameStart(grid: Grid, a: string, n: string, w: string)
    requires Keyboard(grid) && AllLetters(a)
    ensures Score(grid, a + n, a + w) == Score(grid, n, w)
  {
    if a == [] {
      assert a + n == n && a + w == w;
    } else {
      SameStart(grid, a[1..], n, w);
      WalkStep(grid, a + n, a + w);
      assert (a + n)[1..] == a[1..] + n && (a + w)[1..] == a[1..] + w;
    }
  }

  lemma SameRest(grid: Grid, b: string)
    requires Keyboard(grid) && AllLetters(b)
    ensures Score(grid, b, b) == 0
  {
    FreeOnlyForItself(grid, b, b);
  }

  /** A wrong letter costs its distance. */
  lemma OneWrong(grid: Grid, a: string, x: char, y: char, b: string)
    requires Keyboard(grid) && AllLetters(a) && AllLetters(b)
    ensures Score(grid, a + ([x] + b), a + ([y] + b)) == LetterDistance(grid, x, y)
  {
    hide Score;
    var n, w := [x] + b, [y] + b;
    SameStart(grid, a, n, w);
    WalkStep(grid, n, w);
    SameRest(grid, b);
    assert n[1..] == b && w[1..] == b;
    SameLetters(grid, x, y);
    if b != [] {
      SameLetters(grid, x, b[0]);
      SameLetters(grid, b[0], y);
    }
  }

  /** Two letters in the wrong order cost a swap. */
  lemma TwoSwapped(grid: Grid, a: string, x: char, y: char, b: string)
    requires Keyboard(grid) && AllLetters(a + [x, y] + b) && !OneKey(x, y)
    ensures Score(grid, a + ([x, y] + b), a + ([y, x] + b)) == 1
  {
    hide Score, OneKey;
    var all := a + [x, y] + b;
    assert AllLetters(a) && AllLetters(b) && Letter(x) >= 0 && Letter(y) >= 0 by {
      assert all[|a|] == x && all[|a| + 1] == y;
      assert forall k :: 0 <= k < |a| ==> a[k] == all[k];
      assert forall k :: 0 <= k < |b| ==> b[k] == all[|a| + 2 + k];
    }
    var n, w := [x, y] + b, [y, x] + b;
    SameStart(grid, a, n, w);
    WalkStep(grid, n, w);
    SameRest(grid, b);
    assert n[2..] == b && w[2..] == b;
    OneKeyIs(x, y);
    SameLetters(grid, x, y);
    SameLetters(grid, x, x);
    SameLetters(grid, y, y);
  }

  /** After `j` letters on the key of `c`, one is not and the next is again: what looks like two letters in the wrong order. */
  ghost predicate SwapSeen(c: char, b: string, j: nat) {
    j + 1 < |b| && (forall k :: 0 <= k < j ==> OneKey(c, b[k])) && !OneKey(c, b[j]) && OneKey(c, b[j + 1])
  }

  ghost predicate LooksSwapped(c: char, b: string) {
    exists j: nat :: SwapSeen(c, b, j)
  }

  lemma SameKeyAs(c: char, d: char, x: char)
    requires OneKey(c, d)
    ensures OneKey(c, x) <==> OneKey(d, x)
  {
    OneKeyIs(c, d);
    OneKeyIs(c, x);
    OneKeyIs(d, x);
  }

  lemma LooksSwappedLater(c: char, b: string)
    requires b != [] && OneKey(c, b[0])
    ensures LooksSwapped(c, b) <==> LooksSwapped(b[0], b[1..])
  {
    var t := b[1..];
    forall x: char ensures OneKey(c, x) <==> OneKey(b[0], x) {
      SameKeyAs(c, b[0], x);
    }
    hide OneKey;
    if LooksSwapped(c, b) {
      var j: nat :| SwapSeen(c, b, j);
      assert j > 0 && t[j - 1] == b[j] && t[j] == b[j + 1];
      assert forall k :: 0 <= k < j - 1 ==> t[k] == b[k + 1];
      assert SwapSeen(b[0], t, j - 1);
    }
    if LooksSwapped(b[0], t) {
      var j: nat :| SwapSeen(b[0], t, j);
      assert t[j] == b[j + 1] && t[j + 1] == b[j + 2];
      forall k | 0 <= k < j + 1 ensures OneKey(c, b[k]) {
        assert k > 0 ==> b[k] == t[k - 1];
      }
      assert SwapSeen(c, b, j + 1);
    }
  }

  lemma LooksSwappedNow(c: char, b: string)
    requires b != [] && !OneKey(c, b[0])
    ensures LooksSwapped(c, b) <==> |b| >= 2 && OneKey(c, b[1])
  {
    if |b| >= 2 && OneKey(c, b[1]) {
      assert SwapSeen(c, b, 0);
    }
  }

  lemma {:induction false} GapAtStart(grid: Grid, c: char, b: string)
    requires Keyboard(grid) && Letter(c) >= 0 && AllLetters(b)
    ensures Score(grid, b, [c] + b) == GAP <==> !LooksSwapped(c, b)
    ensures Score(grid, [c] + b, b) == GAP <==> !LooksSwapped(c, b)
    decreases |b|
  {
    var more := [c] + b;
    assert more[1..] == b && (|b| >= 1 ==> more[2..] == b[1..]);
    if b == [] {
      WalkTail(grid, b, more);
      WalkTail(grid, more, b);
      return;
    }
    hide Score, OneKey, LooksSwapped;
    OneKeyIs(c, b[0]);
    SameLetters(grid, c, b[0]);
    SameLetters(grid, b[0], c);
    SameLetters(grid, b[0], b[0]);
    WalkStep(grid, b, more);
    WalkStep(grid, more, b);
    if OneKey(c, b[0]) {
      LooksSwappedLater(c, b);
      assert [b[0]] + b[1..] == b;
      GapAtStart(grid, b[0], b[1..]);
    } else {
      LooksSwappedNow(c, b);
      if |b| >= 2 {
        OneKeyIs(c, b[1]);
        SameLetters(grid, c, b[1]);
        SameLetters(grid, b[1], c);
        GreedyIsSound(grid, b[2..], b[1..]);
        GreedyIsSound(grid, b[1..], b[2..]);
      }
      SameRest(grid, b);
    }
  }

  /** A letter that is missing, or one too many, costs one gap, exactly if what follows does not look like a swap. */
  lemma OneMissingOrTooMany(grid: Grid, a: string, c: char, b: string)
    requires Keyboard(grid) && AllLetters(a) && Letter(c) >= 0 && AllLetters(b)
    ensures Score(grid, a + b, a + ([c] + b)) == 2 <==> !LooksSwapped(c, b)
    ensures Score(grid, a + ([c] + b), a + b) == 2 <==> !LooksSwapped(c, b)
  {
    SameStart(grid, a, b, [c] + b);
    SameStart(grid, a, [c] + b, b);
    GapAtStart(grid, c, b);
  }

  class Filter {
    const grid: Grid
    const sensitivity: nat
    var buckets: map<nat, seq<string>>   // _dictionary
    ghost const words: seq<string>

    /** Every bucket holds the words of its length in the order of the dictionary. */
    ghost predicate Valid() reads this {
      Bucketed(buckets, words)
    }

    constructor (grid: Grid, sensitivity: nat, dictionary: seq<string>)
      ensures Valid() && this.grid == grid && this.sensitivity == sensitivity && words == dictionary
    {
      this.grid := grid;
      this.sensitivity := sensitivity;
      this.words := dictionary;
      buckets := map[];
      new;
      for k := 0 to |dictionary|
        invariant Bucketed(buckets, dictionary[..k])
      {
        var str := dictionary[k];
        assert dictionary[..k + 1][..k] == dictionary[..k];
        buckets := buckets[|str| := (if |str| in buckets then buckets[|str|] else []) + [str]];
      }
      assert dictionary[..|dictionary|] == dictionary;
    }

    /** Scores a candidate with two cursors; nothing when it costs more than the sensitivity. */
    method FixHelper(input: string, word: string) returns (distance: Option<nat>)
      ensures var score := Score(grid, input, word);
              distance == if score > sensitivity then None else Some(score)
    {
      var n, m := |input|, |word|;
      var i, j := 0, 0;
      var total := 0;
      assert input[0..] == input && word[0..] == word;
      while i < n && j < m
        invariant i <= n && j <= m
        invariant total + Score(grid, input[i..], word[j..]) == Score(grid, input, word)
        decreases n - i + m - j
      {
        WalkStep(grid, input[i..], word[j..]);
        ghost var restN, restW := input[i..], word[j..];
        assert restN[1..] == input[i + 1..] && restW[1..] == word[j + 1..];
        var d := LetterDistance(grid, input[i], word[j]);
        if d == 0 {
          i, j := i + 1, j + 1;
          continue;
        }
        if i + 1 < n && j + 1 < m && Same(grid, input[i], word[j + 1]) && Same(grid, input[i + 1], word[j]) {
          assert restN[2..] == input[i + 2..] && restW[2..] == word[j + 2..];
          total := total + SWAP;
          i, j := i + 2, j + 2;
          continue;
        }
        if m - j > n - i && Same(grid, input[i], word[j + 1]) {
          total := total + GAP;
          j := j + 1;
          continue;
        }
        if n - i > m - j && Same(grid, input[i + 1], word[j]) {
          total := total + GAP;
          i := i + 1;
          continue;
        }
        total := total + d;
        i, j := i + 1, j + 1;
      }
      WalkTail(grid, input[i..], word[j..]);
      total := total + GAP * ((n - i) + (m - j));
      if total > sensitivity {
        return None;
      }
      return Some(total);
    }

    method Fix(str: string) returns (fixed: string)
      requires Valid()
      ensures Fixes(grid, sensitivity, words, str, fixed)
      ensures if forall j :: 0 <= j < |words| ==> Score(grid, str, words[j]) > sensitivity then fixed == str
              else exists k: nat :: BestAt(grid, sensitivity, words, str, k) && fixed == words[k]
    {
      var minFind := if |str| > sensitivity then |str| - sensitivity else 0;
      var maxFind := |str| + sensitivity;
      var pool: seq<string> := [];
      for length := minFind to maxFind + 1
        invariant pool == Window(words, minFind, length)
      {
        if length in buckets {
          pool := pool + buckets[length];
        }
      }
      fixed := str;
      var best: Option<nat> := None;
      for k := 0 to |pool|
        invariant Picked(grid, sensitivity, pool[..k], str, fixed, best)
      {
        var count := FixHelper(str, pool[k]);
        PickedNext(grid, sensitivity, pool, str, fixed, best, k);
        if count.Some? && (best.None? || count.value < best.value || (count.value == best.value && |pool[k]| > |fixed|)) {
          fixed := pool[k];
          best := count;
        }
      }
      assert pool[..|pool|] == pool;
      PickedFixes(grid, sensitivity, pool, str, fixed, best);
      WindowAgrees(grid, sensitivity, words, str, minFind, fixed);
      FixesByPlace(grid, sensitivity, words, str, fixed);
    }
  }

  /** The state of the choice after some words: the best score so far and the word it belongs to. */
  ghost predicate Picked(grid: Grid, sensitivity: nat, words: seq<string>, n: string, w: string, best: Option<nat>) {
    match best
    case None => w == n && forall v :: v in words ==> Score(grid, n, v) > sensitivity
    case Some(score) => score == Score(grid, n, w) && Champion(grid, sensitivity, words, n, w)
  }

  lemma PickedNext(grid: Grid, sensitivity: nat, words: seq<string>, n: string, w: string, best: Option<nat>, k: nat)
    requires k < |words| && Picked(grid, sensitivity, words[..k], n, w, best)
    ensures var score := Score(grid, n, words[k]);
            if score <= sensitivity
               && (best.None? || score < best.value || (score == best.value && |words[k]| > |w|))
            then Picked(grid, sensitivity, words[..k + 1], n, words[k], Some(score))
            else Picked(grid, sensitivity, words[..k + 1], n, w, best)
  {
    var older, newer, last := words[..k], words[..k + 1], words[k];
    assert newer[..k] == older && newer[k] == last;
    assert forall v :: v in newer <==> v in older || v == last;
    FirstIsThere(grid, older, n, |last|, Score(grid, n, last));
  }

  lemma PickedFixes(grid: Grid, sensitivity: nat, words: seq<string>, n: string, w: string, best: Option<nat>)
    requires Picked(grid, sensitivity, words, n, w, best)
    ensures Fixes(grid, sensitivity, words, n, w)
  {
    if best.Some? {
      FirstIsThere(grid, words, n, |w|, best.value);
    }
  }

  ghost predicate Bucketed(buckets: map<nat, seq<string>>, words: seq<string>) {
    forall length: nat :: (if length in buckets then buckets[length] else []) == OfLength(words, length)
  }

  /** The score of two words in terms of what is left of them after one step. */
  lemma WalkStep(grid: Grid, n: string, w: string)
    requires n != [] && w != []
    ensures Score(grid, n, w) ==
              if Same(grid, n[0], w[0]) then Score(grid, n[1..], w[1..])
              else if |n| >= 2 && |w| >= 2 && Same(grid, n[0], w[1]) && Same(grid, n[1], w[0]) then
                SWAP + Score(grid, n[2..], w[2..])
              else if |w| > |n| && Same(grid, n[0], w[1]) then GAP + Score(grid, n, w[1..])
              else if |n| > |w| && Same(grid, n[1], w[0]) then GAP + Score(grid, n[1..], w)
              else LetterDistance(grid, n[0], w[0]) + Score(grid, n[1..], w[1..])
  {
    var script := Walk(grid, n, w);
    WalkApplies(grid, n, w);
    match script[0] {
      case Substitute => assert script[1..] == Walk(grid, n[1..], w[1..]);
      case Swap => assert script[1..] == Walk(grid, n[2..], w[2..]);
      case Insert => assert script[1..] == Walk(grid, n, w[1..]);
      case Delete => assert script[1..] == Walk(grid, n[1..], w);
    }
  }

  lemma {:induction false} WalkTail(grid: Grid, n: string, w: string)
    requires n == [] || w == []
    ensures Score(grid, n, w) == GAP * (|n| + |w|)
    decreases |n| + |w|
  {
    var script := Walk(grid, n, w);
    if n != [] {
      WalkTail(grid, n[1..], w);
      assert script[1..] == Walk(grid, n[1..], w);
    } else if w != [] {
      WalkTail(grid, n, w[1..]);
      assert script[1..] == Walk(grid, n, w[1..]);
    }
  }
}
