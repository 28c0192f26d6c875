/** Card decks of the game-session engine (backend/src/repository/game.repository.ts):
    the in-place Fisher–Yates shuffle and the two fixed deck generators.

    `Math.random()` is not called: each shuffle takes the sequence of draws it
    would have made, one per loop iteration, in iteration order. */
module Decks {
  import opened Common

  /** Exchange the elements at `i` and `j` (the destructuring swap of the shuffle). */
  function SwapAt<T>(s: seq<T>, i: nat, j: nat): (r: seq<T>)
    requires i < |s| && j < |s|
    ensures |r| == |s| && r[i] == s[j] && r[j] == s[i]
    ensures forall k :: 0 <= k < |s| && k != i && k != j ==> r[k] == s[k]
    ensures multiset(r) == multiset(s)
  {
    s[i := s[j]][j := s[i]]
  }

  /** The index the shuffle swaps with when its loop variable is `m`:
      `Math.floor(Math.random() * (m + 1))`, where the draw is the one made by
      iteration number `n - 1 - m` of a list of length `n`. */
  function PickIndex(rs: seq<real>, n: nat, m: nat): (j: nat)
    requires 1 <= m < n && n <= |rs| + 1 && AllDraws(rs)
    ensures j <= m
  {
    ScaledFloorInRange(rs[n - 1 - m], m + 1);
    ScaledFloor(rs[n - 1 - m], m + 1)
  }

  /** The contents of the shuffled copy at the moment the loop variable holds `i`,
      that is, after the iterations for `n - 1` down to `i + 1` have swapped. */
  function ShuffleState<T>(s: seq<T>, rs: seq<real>, i: nat): (r: seq<T>)
    requires i < |s| && |s| <= |rs| + 1 && AllDraws(rs)
    ensures |r| == |s| && multiset(r) == multiset(s)
    decreases |s| - i
  {
    if i == |s| - 1 then s
    else SwapAt(ShuffleState(s, rs, i + 1), i + 1, PickIndex(rs, |s|, i + 1))
  }

  /** What `shuffleArray(s)` returns for the draws `rs`: a permutation of `s`. */
  function Shuffled<T>(s: seq<T>, rs: seq<real>): (r: seq<T>)
    requires |s| <= |rs| + 1 && AllDraws(rs)
    ensures |r| == |s| && multiset(r) == multiset(s)
  {
    if |s| == 0 then s else ShuffleState(s, rs, 0)
  }

  /** `shuffleArray`: copy the input into a fresh array, then for `i` from the
      last index down to 1 swap element `i` with a random element at or below it. */
  method ShuffleArray<T>(s: seq<T>, rs: seq<real>) returns (r: seq<T>)
    requires |s| <= |rs| + 1 && AllDraws(rs)
    ensures r == Shuffled(s, rs)
    ensures multiset(r) == multiset(s)
  {
    var a := new T[|s|](k requires 0 <= k < |s| => s[k]);
    assert a[..] == s;
    var i := |s| - 1;
    while i > 0
      invariant a.Length == |s|
      invariant |s| == 0 ==> i == -1 && a[..] == s
      invariant |s| > 0 ==> 0 <= i < |s| && a[..] == ShuffleState(s, rs, i)
      decreases i
    {
      var j := PickIndex(rs, |s|, i);
      var t := a[i];
      a[i] := a[j];
      a[j] := t;
      i := i - 1;
    }
    r := a[..];
  }

  // ---------------------------------------------------------------------
  // The standard 52-card deck

  const Suits: seq<string> := ["♥", "♦", "♣", "♠"]
  const Values: seq<string> := ["A", "2", "3", "4", "5", "6", "7", "8", "9", "10", "J", "Q", "K"]

  /** The cards `value + suit` of one suit, in the order of `values`. */
  function SuitRun(values: seq<string>, suit: string): (r: seq<string>)
    ensures |r| == |values|
    ensures forall k :: 0 <= k < |values| ==> r[k] == values[k] + suit
  {
    seq(|values|, k requires 0 <= k < |values| => values[k] + suit)
  }

  /** The unshuffled deck: one run per suit, suits in order. */
  function SuitRuns(suits: seq<string>, values: seq<string>): seq<string> {
    if suits == [] then []
    else SuitRuns(suits[..|suits| - 1], values) + SuitRun(values, suits[|suits| - 1])
  }

  lemma MulSucc(a: nat, b: nat)
    ensures (a + 1) * b == a * b + b
  {
  }

  /** Every card of `xs` ends with one of the one-character suits `suits`. */
  predicate EndWithSuit(xs: seq<string>, suits: seq<string>) {
    forall x :: x in xs ==> |x| >= 1 && [x[|x| - 1]] in suits
  }

  /** The cards of two runs end with a suit when each run's do. */
  lemma EndWithSuitConcat(xs: seq<string>, ys: seq<string>, suits: seq<string>)
    requires EndWithSuit(xs, suits) && EndWithSuit(ys, suits)
    ensures EndWithSuit(xs + ys, suits)
  {
    forall x | x in xs + ys ensures |x| >= 1 && [x[|x| - 1]] in suits {
      if x in xs {} else { assert x in ys; }
    }
  }

  /** A run whose cards end with one of all but the last of `suits` ends with
      one of `suits`. */
  lemma EndWithSuitWiden(xs: seq<string>, suits: seq<string>)
    requires |suits| > 0 && EndWithSuit(xs, suits[..|suits| - 1])
    ensures EndWithSuit(xs, suits)
  {
    forall x | x in xs ensures |x| >= 1 && [x[|x| - 1]] in suits {
      var i :| 0 <= i < |suits| - 1 && suits[..|suits| - 1][i] == [x[|x| - 1]];
    }
  }

  /** The unshuffled deck holds |suits| * |values| cards, each ending in its suit. */
  lemma {:induction false} SuitRunsShape(suits: seq<string>, values: seq<string>)
    requires forall i :: 0 <= i < |suits| ==> |suits[i]| == 1
    ensures |SuitRuns(suits, values)| == |suits| * |values|
    ensures EndWithSuit(SuitRuns(suits, values), suits)
  {
    if suits != [] {
      var front, last := suits[..|suits| - 1], suits[|suits| - 1];
      var rf, rl := SuitRuns(front, values), SuitRun(values, last);
      assert SuitRuns(suits, values) == rf + rl;
      SuitRunsShape(front, values);
      MulSucc(|front|, |values|);
      EndWithSuitWiden(rf, suits);
      SuitRunEnds(values, last);
      assert EndWithSuit(rl, suits);
      EndWithSuitConcat(rf, rl, suits);
    }
  }

  /** Within one suit, distinct values give distinct cards. */
  lemma SuitRunDistinct(values: seq<string>, suit: string)
    requires NoDup(values)
    ensures NoDup(SuitRun(values, suit))
  {
    var r := SuitRun(values, suit);
    forall i, j | 0 <= i < j < |r| ensures r[i] != r[j] {
      var vi, vj := values[i], values[j];
      assert (vi + suit)[..|vi|] == vi;
      assert (vj + suit)[..|vj|] == vj;
    }
  }

  /** Every card of a one-character suit ends with that suit. */
  lemma SuitRunEnds(values: seq<string>, suit: string)
    requires |suit| == 1
    ensures forall y :: y in SuitRun(values, suit) ==> |y| >= 1 && [y[|y| - 1]] == suit
  {
    forall y | y in SuitRun(values, suit) ensures |y| >= 1 && [y[|y| - 1]] == suit {
      var k :| 0 <= k < |values| && SuitRun(values, suit)[k] == y;
      assert y == values[k] + suit;
      assert y[|y| - 1] == suit[0];
    }
  }

  /** A duplicate-free list without its last element is duplicate-free and lacks that element. */
  lemma NoDupFront<T>(s: seq<T>)
    requires NoDup(s) && s != []
    ensures NoDup(s[..|s| - 1]) && s[|s| - 1] !in s[..|s| - 1]
  {
    var front := s[..|s| - 1];
    forall i, j | 0 <= i < j < |front| ensures front[i] != front[j] {
      assert front[i] == s[i] && front[j] == s[j];
    }
    forall k | 0 <= k < |front| ensures front[k] != s[|s| - 1] {
      assert front[k] == s[k];
    }
  }

  /** Distinct one-character suits and distinct values give distinct cards. */
  lemma {:induction false} SuitRunsDistinct(suits: seq<string>, values: seq<string>)
    requires NoDup(suits) && NoDup(values)
    requires forall i :: 0 <= i < |suits| ==> |suits[i]| == 1
    ensures NoDup(SuitRuns(suits, values))
  {
    if suits != [] {
      var front, last := suits[..|suits| - 1], suits[|suits| - 1];
      NoDupFront(suits);
      assert forall i :: 0 <= i < |front| ==> |front[i]| == 1 by {
        forall i | 0 <= i < |front| ensures |front[i]| == 1 {
          assert front[i] == suits[i];
        }
      }
      SuitRunsDistinct(front, values);
      SuitRunsShape(front, values);
      SuitRunDistinct(values, last);
      SuitRunEnds(values, last);
      var a, b := SuitRuns(front, values), SuitRun(values, last);
      forall x | x in a ensures x !in b {
        assert [x[|x| - 1]] in front;
      }
      NoDupConcat(a, b);
    }
  }

  /** The unshuffled standard deck: 52 distinct cards. */
  function Standard52Ordered(): (r: seq<string>)
    ensures |r| == 52 && NoDup(r)
  {
    assert NoDup(Suits);
    assert NoDup(Values);
    SuitRunsShape(Suits, Values);
    SuitRunsDistinct(Suits, Values);
    SuitRuns(Suits, Values)
  }

  /** `generateStandard52Deck`: push `value + suit` for every suit (outer loop)
      and every value (inner loop), then shuffle. */
  method GenerateStandard52Deck(rs: seq<real>) returns (deck: seq<string>)
    requires |rs| >= 51 && AllDraws(rs)
    ensures deck == Shuffled(Standard52Ordered(), rs)
    ensures |deck| == 52 && multiset(deck) == multiset(Standard52Ordered())
  {
    var cards: seq<string> := [];
    var si := 0;
    while si < |Suits|
      invariant 0 <= si <= |Suits|
      invariant cards == SuitRuns(Suits[..si], Values)
    {
      var suit := Suits[si];
      var vi := 0;
      while vi < |Values|
        invariant 0 <= vi <= |Values|
        invariant cards == SuitRuns(Suits[..si], Values) + SuitRun(Values[..vi], suit)
      {
        assert SuitRun(Values[..vi + 1], suit) == SuitRun(Values[..vi], suit) + [Values[vi] + suit];
        cards := cards + [Values[vi] + suit];
        vi := vi + 1;
      }
      assert Values[..vi] == Values;
      assert Suits[..si + 1][..si] == Suits[..si];
      si := si + 1;
    }
    assert Suits[..si] == Suits;
    assert cards == Standard52Ordered();
    deck := ShuffleArray(cards, rs);
  }

  // ---------------------------------------------------------------------
  // The 108-card Uno deck

  const Colors: seq<string> := ["R", "G", "B", "Y"]
  const Numbers: seq<string> := ["0", "1", "2", "3", "4", "5", "6", "7", "8", "9"]
  const Actions: seq<string> := ["Skip", "Reverse", "Draw2"]
  const Wilds: seq<string> := ["Wild", "WildDraw4"]

  /** Each element of `xs` pushed twice in a row. */
  function Twice(xs: seq<string>): (r: seq<string>)
    ensures |r| == 2 * |xs|
    ensures forall x :: x in r ==> x in xs
  {
    if xs == [] then [] else Twice(xs[..|xs| - 1]) + [xs[|xs| - 1], xs[|xs| - 1]]
  }

  /** `n` copies of `x`. */
  function Repeat(x: string, n: nat): (r: seq<string>)
    ensures |r| == n && forall k :: 0 <= k < n ==> r[k] == x
  {
    seq(n, _ => x)
  }

  /** `n` copies of `x` hold `x` exactly `n` times. */
  lemma {:induction false} RepeatCount(x: string, n: nat)
    ensures multiset(Repeat(x, n))[x] == n
    ensures forall y :: y != x ==> multiset(Repeat(x, n))[y] == 0
  {
    if n > 0 {
      RepeatCount(x, n - 1);
      assert Repeat(x, n) == Repeat(x, n - 1) + [x];
    }
  }

  /** The cards `${color}-${name}` for each name of `names`. */
  function Labels(color: string, names: seq<string>): (r: seq<string>)
    ensures |r| == |names|
    ensures forall k :: 0 <= k < |names| ==> r[k] == color + "-" + names[k]
  {
    seq(|names|, k requires 0 <= k < |names| => color + "-" + names[k])
  }

  /** The cards one iteration of the colour loop pushes: one zero, two of each
      of 1 to 9, two of each action. */
  function ColorCards(color: string): (r: seq<string>)
    ensures |r| == 25
  {
    [color + "-0"] + Twice(Labels(color, Numbers[1..])) + Twice(Labels(color, Actions))
  }

  /** Pushing each name twice doubles how often every name occurs. */
  lemma {:induction false} TwiceCount(xs: seq<string>, x: string)
    ensures multiset(Twice(xs))[x] == 2 * multiset(xs)[x]
  {
    if xs != [] {
      var front, last := xs[..|xs| - 1], xs[|xs| - 1];
      TwiceCount(front, x);
      assert xs == front + [last];
      assert Twice(xs) == Twice(front) + [last, last];
      assert multiset(Twice(xs)) == multiset(Twice(front)) + multiset([last, last]);
    }
  }

  /** Two labels of one colour are equal exactly when their names are. */
  lemma LabelInjective(color: string, a: string, b: string)
    ensures color + "-" + a == color + "-" + b <==> a == b
  {
    if color + "-" + a == color + "-" + b {
      assert a == (color + "-" + a)[|color| + 1..];
      assert b == (color + "-" + b)[|color| + 1..];
    }
  }

  /** The label of `name` occurs among the labels as often as `name` among the names. */
  lemma {:induction false} LabelsCount(color: string, names: seq<string>, name: string)
    ensures multiset(Labels(color, names))[color + "-" + name] == multiset(names)[name]
  {
    if names != [] {
      var front, last := names[..|names| - 1], names[|names| - 1];
      LabelsCount(color, front, name);
      assert names == front + [last];
      assert Labels(color, names) == Labels(color, front) + [color + "-" + last];
      LabelInjective(color, last, name);
    }
  }

  /** In a list without repeats every element occurs once. */
  lemma {:induction false} NoDupCount(xs: seq<string>, x: string)
    requires NoDup(xs)
    ensures multiset(xs)[x] == (if x in xs then 1 else 0)
  {
    if xs != [] {
      var front, last := xs[..|xs| - 1], xs[|xs| - 1];
      NoDupFront(xs);
      NoDupCount(front, x);
      assert xs == front + [last];
    }
  }

  /** The run `zero`, then each of `ns` twice, then each of `acts` twice, all
      labelled with `color`. */
  function Run(color: string, zero: string, ns: seq<string>, acts: seq<string>): seq<string> {
    [color + "-" + zero] + Twice(Labels(color, ns)) + Twice(Labels(color, acts))
  }

  /** How often a run holds the card of `name`. */
  lemma RunCountOf(color: string, zero: string, ns: seq<string>, acts: seq<string>, name: string)
    ensures multiset(Run(color, zero, ns, acts))[color + "-" + name] ==
              (if name == zero then 1 else 0) + 2 * multiset(ns)[name] + 2 * multiset(acts)[name]
  {
    var card := color + "-" + name;
    var t1, t2 := Twice(Labels(color, ns)), Twice(Labels(color, acts));
    TwiceCount(Labels(color, ns), card);
    TwiceCount(Labels(color, acts), card);
    LabelsCount(color, ns, name);
    LabelsCount(color, acts, name);
    LabelInjective(color, zero, name);
    assert multiset(Run(color, zero, ns, acts)) == multiset([color + "-" + zero]) + multiset(t1) + multiset(t2);
  }

  /** The parts of a repeat-free `[zero] + ns + acts` are repeat-free and share no name. */
  lemma NoDupParts(zero: string, ns: seq<string>, acts: seq<string>)
    requires NoDup([zero] + ns + acts)
    ensures NoDup(ns) && NoDup(acts) && zero !in ns && zero !in acts
    ensures forall x :: x in ns ==> x !in acts
  {
    var all := [zero] + ns + acts;
    assert forall i :: 0 <= i < |ns| ==> all[1 + i] == ns[i];
    assert forall i :: 0 <= i < |acts| ==> all[1 + |ns| + i] == acts[i];
    assert all[0] == zero;
  }

  /** With no name repeated, a run holds the zero once and every other name twice. */
  lemma RunCount(color: string, zero: string, ns: seq<string>, acts: seq<string>, name: string)
    requires NoDup([zero] + ns + acts)
    ensures name == zero ==> multiset(Run(color, zero, ns, acts))[color + "-" + name] == 1
    ensures name in ns + acts ==> multiset(Run(color, zero, ns, acts))[color + "-" + name] == 2
  {
    NoDupParts(zero, ns, acts);
    RunCountOf(color, zero, ns, acts, name);
    NoDupCount(ns, name);
    NoDupCount(acts, name);
  }

  /** The thirteen card names of a colour are distinct. */
  lemma CardNamesDistinct()
    ensures NoDup([Numbers[0]] + Numbers[1..] + Actions)
  {
    assert [Numbers[0]] + Numbers[1..] + Actions == Numbers + Actions;
    assert NoDup(Numbers + Actions);
  }

  /** One colour's iteration is the run of "0", the other numbers and the actions. */
  lemma ColorCardsIsRun(color: string)
    ensures ColorCards(color) == Run(color, Numbers[0], Numbers[1..], Actions)
  {
    assert "-" + Numbers[0] == "-0";
    assert color + "-" + Numbers[0] == color + "-0";
  }

  /** One colour's iteration pushes one zero, two of each of 1 to 9 and two of
      each action. */
  lemma ColorCardsCounts(color: string)
    ensures multiset(ColorCards(color))[color + "-0"] == 1
    ensures forall k :: 1 <= k < |Numbers| ==> multiset(ColorCards(color))[color + "-" + Numbers[k]] == 2
    ensures forall k :: 0 <= k < |Actions| ==> multiset(ColorCards(color))[color + "-" + Actions[k]] == 2
  {
    CardNamesDistinct();
    ColorCardsIsRun(color);
    RunCount(color, Numbers[0], Numbers[1..], Actions, Numbers[0]);
    assert color + "-" + Numbers[0] == color + "-0";
    forall k | 1 <= k < |Numbers|
      ensures multiset(ColorCards(color))[color + "-" + Numbers[k]] == 2
    {
      assert Numbers[k] == Numbers[1..][k - 1];
      RunCount(color, Numbers[0], Numbers[1..], Actions, Numbers[k]);
    }
    forall k | 0 <= k < |Actions|
      ensures multiset(ColorCards(color))[color + "-" + Actions[k]] == 2
    {
      assert Actions[k] in Numbers[1..] + Actions;
      RunCount(color, Numbers[0], Numbers[1..], Actions, Actions[k]);
    }
  }

  function ColorRuns(colors: seq<string>): (r: seq<string>)
    ensures |r| == 25 * |colors|
  {
    if colors == [] then [] else ColorRuns(colors[..|colors| - 1]) + ColorCards(colors[|colors| - 1])
  }

  /** Four copies of `W-${wild}` for each wild name, in order. */
  function WildRuns(wilds: seq<string>): (r: seq<string>)
    ensures |r| == 4 * |wilds|
  {
    if wilds == [] then [] else WildRuns(wilds[..|wilds| - 1]) + Repeat("W-" + wilds[|wilds| - 1], 4)
  }

  /** Every card of one colour starts with that colour's letter. */
  lemma ColorCardsStartWithColor(color: string)
    requires |color| == 1
    ensures forall x :: x in ColorCards(color) ==> |x| >= 1 && x[0] == color[0]
  {
    var nums, acts := Labels(color, Numbers[1..]), Labels(color, Actions);
    forall x | x in ColorCards(color) ensures |x| >= 1 && x[0] == color[0] {
      if x in Twice(nums) {
        var k :| 0 <= k < |nums| && nums[k] == x;
        assert x == color + "-" + Numbers[1..][k];
      } else if x in Twice(acts) {
        var k :| 0 <= k < |acts| && acts[k] == x;
        assert x == color + "-" + Actions[k];
      } else {
        assert x == color + "-0";
      }
    }
  }

  /** Every card of `xs` starts with one of the letters `colors`. */
  predicate StartWithColor(xs: seq<string>, colors: seq<string>) {
    forall x :: x in xs ==> |x| >= 1 && [x[0]] in colors
  }

  /** The cards of two runs start with a colour letter when each run's do. */
  lemma StartWithColorConcat(xs: seq<string>, ys: seq<string>, colors: seq<string>)
    requires StartWithColor(xs, colors) && StartWithColor(ys, colors)
    ensures StartWithColor(xs + ys, colors)
  {
    forall x | x in xs + ys ensures |x| >= 1 && [x[0]] in colors {
      if x in xs {} else { assert x in ys; }
    }
  }

  /** A run whose cards start with a letter of all but the last of `colors`
      starts with a letter of `colors`. */
  lemma StartWithColorWiden(xs: seq<string>, colors: seq<string>)
    requires |colors| > 0 && StartWithColor(xs, colors[..|colors| - 1])
    ensures StartWithColor(xs, colors)
  {
    forall x | x in xs ensures |x| >= 1 && [x[0]] in colors {
      var i :| 0 <= i < |colors| - 1 && colors[..|colors| - 1][i] == [x[0]];
    }
  }

  /** A run whose cards start with the letter of the last of `colors` starts
      with a letter of `colors`. */
  lemma StartWithLastColor(xs: seq<string>, colors: seq<string>)
    requires |colors| > 0 && |colors[|colors| - 1]| == 1
    requires forall x :: x in xs ==> |x| >= 1 && x[0] == colors[|colors| - 1][0]
    ensures StartWithColor(xs, colors)
  {
    var c := colors[|colors| - 1];
    assert [c[0]] == c;
  }

  /** Every coloured card starts with a colour letter. */
  lemma {:induction false} ColorRunsStartWithColor(colors: seq<string>)
    requires forall i :: 0 <= i < |colors| ==> |colors[i]| == 1
    ensures StartWithColor(ColorRuns(colors), colors)
  {
    if colors != [] {
      var front, c := colors[..|colors| - 1], colors[|colors| - 1];
      var rf, cc := ColorRuns(front), ColorCards(c);
      assert ColorRuns(colors) == rf + cc;
      ColorRunsStartWithColor(front);
      StartWithColorWiden(rf, colors);
      ColorCardsStartWithColor(c);
      StartWithLastColor(cc, colors);
      StartWithColorConcat(rf, cc, colors);
    }
  }

  /** Two wild names give four copies of each wild card, and nothing else. */
  lemma WildRunsOfTwo(a: string, b: string)
    ensures WildRuns([a, b]) == Repeat("W-" + a, 4) + Repeat("W-" + b, 4)
  {
    assert [a, b][..1] == [a];
    assert [a][..0] == [];
  }

  /** No coloured card is a wild card when "W" is not a colour. */
  lemma NoWildAmongColored(colors: seq<string>, wild: string)
    requires forall i :: 0 <= i < |colors| ==> |colors[i]| == 1
    requires "W" !in colors
    ensures "W-" + wild !in ColorRuns(colors)
  {
    ColorRunsStartWithColor(colors);
    var x := "W-" + wild;
    assert [x[0]] == "W";
  }

  /** A card absent from `colored` occurs in `colored + Repeat(x, 4) + Repeat(y, 4)`
      exactly as often as among the two runs of four. */
  lemma FourOfEach(colored: seq<string>, x: string, y: string)
    requires x !in colored && y !in colored && x != y
    ensures multiset(colored + (Repeat(x, 4) + Repeat(y, 4)))[x] == 4
    ensures multiset(colored + (Repeat(x, 4) + Repeat(y, 4)))[y] == 4
  {
    RepeatCount(x, 4);
    RepeatCount(y, 4);
    assert multiset(colored + (Repeat(x, 4) + Repeat(y, 4))) == multiset(colored) + multiset(Repeat(x, 4)) + multiset(Repeat(y, 4));
  }

  /** The coloured runs hold no wild card, so the deck holds four of each. */
  lemma UnoWildCounts()
    ensures var r := ColorRuns(Colors) + WildRuns(Wilds);
            multiset(r)["W-Wild"] == 4 && multiset(r)["W-WildDraw4"] == 4
  {
    var colored := ColorRuns(Colors);
    NoWildAmongColored(Colors, "Wild");
    NoWildAmongColored(Colors, "WildDraw4");
    WildRunsOfTwo("Wild", "WildDraw4");
    assert "W-" + "Wild" == "W-Wild" && "W-" + "WildDraw4" == "W-WildDraw4";
    FourOfEach(colored, "W-Wild", "W-WildDraw4");
  }

  /** The unshuffled Uno deck: 108 cards, with four of each wild card. */
  function UnoOrdered(): (r: seq<string>)
    ensures |r| == 108
    ensures multiset(r)["W-Wild"] == 4 && multiset(r)["W-WildDraw4"] == 4
  {
    UnoWildCounts();
    ColorRuns(Colors) + WildRuns(Wilds)
  }

  /** The inner loops of `generateUnoDeck`: `${color}-${name}` pushed twice
      for each name in turn. */
  method PushEachTwice(cards: seq<string>, color: string, names: seq<string>) returns (r: seq<string>)
    ensures r == cards + Twice(Labels(color, names))
  {
    r := cards;
    var i := 0;
    while i < |names|
      invariant 0 <= i <= |names|
      invariant r == cards + Twice(Labels(color, names[..i]))
    {
      assert Labels(color, names[..i + 1])[..i] == Labels(color, names[..i]);
      r := r + [color + "-" + names[i]];
      r := r + [color + "-" + names[i]];
      i := i + 1;
    }
    assert names[..i] == names;
  }

  /** One iteration of the colour loop of `generateUnoDeck`. */
  method PushColorCards(cards: seq<string>, color: string) returns (r: seq<string>)
    ensures r == cards + ColorCards(color)
  {
    r := cards + [color + "-0"];
    r := PushEachTwice(r, color, Numbers[1..]);
    r := PushEachTwice(r, color, Actions);
  }

  /** `generateUnoDeck`: the colour loop, then the wild loop with four pushes
      each, then shuffle. */
  method GenerateUnoDeck(rs: seq<real>) returns (deck: seq<string>)
    requires |rs| >= 107 && AllDraws(rs)
    ensures deck == Shuffled(UnoOrdered(), rs)
    ensures |deck| == 108 && multiset(deck) == multiset(UnoOrdered())
  {
    var cards: seq<string> := [];
    var ci := 0;
    while ci < |Colors|
      invariant 0 <= ci <= |Colors|
      invariant cards == ColorRuns(Colors[..ci])
    {
      cards := PushColorCards(cards, Colors[ci]);
      assert Colors[..ci + 1][..ci] == Colors[..ci];
      ci := ci + 1;
    }
    assert Colors[..ci] == Colors;
    var colored := cards;
    var wi := 0;
    while wi < |Wilds|
      invariant 0 <= wi <= |Wilds|
      invariant cards == colored + WildRuns(Wilds[..wi])
    {
      var card := "W-" + Wilds[wi];
      var k := 0;
      while k < 4
        invariant 0 <= k <= 4
        invariant cards == colored + WildRuns(Wilds[..wi]) + Repeat(card, k)
      {
        assert Repeat(card, k + 1) == Repeat(card, k) + [card];
        cards := cards + [card];
        k := k + 1;
      }
      assert Wilds[..wi + 1][..wi] == Wilds[..wi];
      wi := wi + 1;
    }
    assert Wilds[..wi] == Wilds;
    assert cards == UnoOrdered();
    deck := ShuffleArray(cards, rs);
  }
}
