/**
 * The bot's side of the game: the full thirteen-category scoring function
 * and the rule-ordered decision procedure that picks the bot's next move.
 */
module BotLogic {
  import opened Options
  import opened Categories
  import opened Dice

  // ---------------------------------------------------------------------
  // Scoring
  // ---------------------------------------------------------------------

  /** What a category is worth for a hand, stated by the shape of the hand. */
  function PossibleScore(category: Category, dice: seq<int>): int {
    match category
    case Ones => Count(dice, 1) * 1
    case Twos => Count(dice, 2) * 2
    case Threes => Count(dice, 3) * 3
    case Fours => Count(dice, 4) * 4
    case Fives => Count(dice, 5) * 5
    case Sixes => Count(dice, 6) * 6
    case ThreeOfAKind => if HasCountAtLeast(dice, 3) then Sum(dice) else 0
    case FourOfAKind => if HasCountAtLeast(dice, 4) then Sum(dice) else 0
    case FullHouse => if (HasCount(dice, 3) && HasCount(dice, 2)) || HasCount(dice, 5) then 25 else 0
    case SmallStraight => if HasFourInARow(dice) then 30 else 0
    case LargeStraight => if HasFiveInARow(dice) then 40 else 0
    case Chance => Sum(dice)
    case Yahtzee => if HasCount(dice, 5) then 50 else 0
    case Other(_) => 0
  }

  /** `calculatePossibleScore`: the counts table, the sum, the sorted
      distinct faces and the two straight tests, then the switch. */
  method CalculatePossibleScore(category: Category, dice: seq<int>) returns (r: int)
    ensures r == PossibleScore(category, dice)
  {
    var counts := CountFaces(dice);
    var sum := Sum(dice);
    var uniqueDice := UniqueSorted(dice);
    var hasSmallStraight := ScanWindows(uniqueDice);
    var hasLargeStraight := false;
    if |uniqueDice| == 5 {
      hasLargeStraight := IsConsecutive(uniqueDice);
    }
    match category {
      case Ones => r := Lookup(counts, 1) * 1;
      case Twos => r := Lookup(counts, 2) * 2;
      case Threes => r := Lookup(counts, 3) * 3;
      case Fours => r := Lookup(counts, 4) * 4;
      case Fives => r := Lookup(counts, 5) * 5;
      case Sixes => r := Lookup(counts, 6) * 6;
      case ThreeOfAKind =>
        CountsTableValues(dice, counts, 3);
        r := if SomeValueAtLeast(counts, 3) then sum else 0;
      case FourOfAKind =>
        CountsTableValues(dice, counts, 4);
        r := if SomeValueAtLeast(counts, 4) then sum else 0;
      case FullHouse =>
        CountsTableValues(dice, counts, 2);
        CountsTableValues(dice, counts, 3);
        CountsTableValues(dice, counts, 5);
        r := if (IncludesValue(counts, 3) && IncludesValue(counts, 2)) || IncludesValue(counts, 5) then 25 else 0;
      case SmallStraight =>
        WindowIffFourInARow(dice);
        r := if hasSmallStraight then 30 else 0;
      case LargeStraight =>
        LargeIffFiveInARow(dice);
        r := if hasLargeStraight then 40 else 0;
      case Chance => r := sum;
      case Yahtzee =>
        CountsTableValues(dice, counts, 5);
        r := if IncludesValue(counts, 5) then 50 else 0;
      case Other(_) => r := 0;
    }
  }

  /** On a server hand every category is worth between 0 and 50. */
  lemma ScoreBounds(category: Category, dice: seq<int>)
    requires ValidDice(dice)
    ensures 0 <= PossibleScore(category, dice) <= 50
  {
    SumBounds(dice, 0, 6);
  }

  /** Yahtzee pays 50 exactly when all five dice show one face. */
  lemma YahtzeeIffAllEqual(dice: seq<int>)
    requires |dice| == 5
    ensures PossibleScore(Yahtzee, dice) == 50 <==> forall i :: 0 <= i < 5 ==> dice[i] == dice[0]
  {
    if HasCount(dice, 5) {
      var i :| 0 <= i < |dice| && Count(dice, dice[i]) == 5;
      CountAll(dice, dice[i]);
    }
    CountAll(dice, dice[0]);
  }

  /** A five of a kind may also be filed as a full house, a three of a kind
      or a four of a kind, and scores there too. */
  lemma FiveOfAKindCountsEverywhere(dice: seq<int>)
    requires |dice| == 5 && forall i :: 0 <= i < 5 ==> dice[i] == dice[0]
    ensures PossibleScore(FullHouse, dice) == 25
    ensures PossibleScore(ThreeOfAKind, dice) == Sum(dice)
    ensures PossibleScore(FourOfAKind, dice) == Sum(dice)
    ensures PossibleScore(Yahtzee, dice) == 50
  {
    CountAll(dice, dice[0]);
  }

  /** A three-and-two is a full house. */
  lemma SampleFullHouse()
    ensures PossibleScore(FullHouse, [2, 2, 2, 5, 5]) == 25
  {
    var d := [2, 2, 2, 5, 5];
    assert Count(d, d[0]) == 3;
    assert Count(d, d[3]) == 2;
  }

  /** Five of a kind is a full house and a yahtzee. */
  lemma SampleFiveOfAKind()
    ensures PossibleScore(FullHouse, [4, 4, 4, 4, 4]) == 25
    ensures PossibleScore(Yahtzee, [4, 4, 4, 4, 4]) == 50
  {
    var d := [4, 4, 4, 4, 4];
    assert Count(d, d[0]) == 5;
  }

  /** Four in a row with a gap to the fifth die is a small straight. */
  lemma SampleSmallStraight()
    ensures PossibleScore(SmallStraight, [1, 2, 3, 4, 6]) == 30
  {
    var d := [1, 2, 3, 4, 6];
    assert FourAt(d, 0, 1, 2, 3);
  }

  lemma SampleLargeStraight()
    ensures PossibleScore(LargeStraight, [2, 3, 4, 5, 6]) == 40
  {
    var d := [2, 3, 4, 5, 6];
    assert FiveAt(d, 0, 1, 2, 3, 4);
  }

  /** A three of a kind scores the sum of all five dice. */
  lemma SampleThreeOfAKind()
    ensures PossibleScore(ThreeOfAKind, [2, 2, 2, 5, 6]) == 17
  {
    var d := [2, 2, 2, 5, 6];
    assert Count(d, d[0]) == 3;
    assert d[1..] == [2, 2, 5, 6] && d[2..] == [2, 5, 6] && d[3..] == [5, 6] && d[4..] == [6];
    assert Sum([6]) == 6;
    assert Sum([5, 6]) == 11;
    assert Sum([2, 5, 6]) == 13;
    assert Sum([2, 2, 5, 6]) == 15;
    assert Sum(d) == 17;
  }

  // ---------------------------------------------------------------------
  // The most common face: `keys.reduce((a, b) => counts[a] > counts[b] ? a : b)`
  // ---------------------------------------------------------------------

  /** The face m shows, no face shows more often, and every larger face
      shows strictly less often (ties go to the larger face). */
  predicate IsTopFace(dice: seq<int>, m: int) {
    m in dice &&
    (forall i :: 0 <= i < |dice| ==> Count(dice, dice[i]) <= Count(dice, m)) &&
    (forall i :: 0 <= i < |dice| && dice[i] > m ==> Count(dice, dice[i]) < Count(dice, m))
  }

  function ReduceMostCommon(dice: seq<int>, acc: int, rest: seq<int>): int
    decreases |rest|
  {
    if rest == [] then acc
    else ReduceMostCommon(dice, if Count(dice, acc) > Count(dice, rest[0]) then acc else rest[0], rest[1..])
  }

  lemma {:induction false} ReduceMostCommonSpec(dice: seq<int>, acc: int, rest: seq<int>)
    requires Increasing(rest)
    requires forall k :: 0 <= k < |rest| ==> acc < rest[k]
    ensures var r := ReduceMostCommon(dice, acc, rest);
      (r == acc || r in rest) && acc <= r && Count(dice, acc) <= Count(dice, r) &&
      (forall k :: 0 <= k < |rest| ==> Count(dice, rest[k]) <= Count(dice, r)) &&
      (forall k :: 0 <= k < |rest| && rest[k] > r ==> Count(dice, rest[k]) < Count(dice, r))
    decreases |rest|
  {
    if rest != [] {
      var next := if Count(dice, acc) > Count(dice, rest[0]) then acc else rest[0];
      ReduceMostCommonSpec(dice, next, rest[1..]);
      var r := ReduceMostCommon(dice, next, rest[1..]);
      assert r == ReduceMostCommon(dice, acc, rest);
      forall k | 0 <= k < |rest| ensures Count(dice, rest[k]) <= Count(dice, r)
        && (rest[k] > r ==> Count(dice, rest[k]) < Count(dice, r))
      {
        if k > 0 { assert rest[k] == rest[1..][k - 1]; }
      }
    }
  }

  /** `mostCommonNum`: the reduce over the ascending keys of the counts table. */
  function MostCommon(dice: seq<int>): (m: int)
    requires |dice| > 0
    ensures IsTopFace(dice, m)
  {
    var keys := UniqueSorted(dice);
    assert forall i :: 0 <= i < |dice| ==> dice[i] in keys by {
      forall i | 0 <= i < |dice| ensures dice[i] in keys {
        assert dice[i] in dice;
      }
    }
    ReduceOverKeys(dice, keys);
    ReduceMostCommon(dice, keys[0], keys[1..])
  }

  /** The reduce over the ascending distinct faces finds the top face. */
  lemma ReduceOverKeys(dice: seq<int>, keys: seq<int>)
    requires |dice| > 0 && Increasing(keys)
    requires forall i :: 0 <= i < |dice| ==> dice[i] in keys
    requires forall k :: 0 <= k < |keys| ==> keys[k] in dice
    ensures |keys| > 0 && IsTopFace(dice, ReduceMostCommon(dice, keys[0], keys[1..]))
  {
    assert dice[0] in keys;
    var rest := keys[1..];
    forall k | 0 <= k < |rest| ensures keys[0] < rest[k] {
      assert rest[k] == keys[k + 1];
    }
    ReduceMostCommonSpec(dice, keys[0], rest);
    var m := ReduceMostCommon(dice, keys[0], rest);
    forall i | 0 <= i < |dice|
      ensures Count(dice, dice[i]) <= Count(dice, m)
      ensures dice[i] > m ==> Count(dice, dice[i]) < Count(dice, m)
    {
      var p :| 0 <= p < |keys| && keys[p] == dice[i];
      if p > 0 {
        assert rest[p - 1] == dice[i];
      }
    }
  }

  lemma TopFaceUnique(dice: seq<int>, m1: int, m2: int)
    requires IsTopFace(dice, m1) && IsTopFace(dice, m2)
    ensures m1 == m2
  {
    var i1 := IndexOf(dice, m1);
    var i2 := IndexOf(dice, m2);
  }

  // ---------------------------------------------------------------------
  // The longest run of consecutive values (lines 93-104)
  // ---------------------------------------------------------------------

  /** u[s..e] is a run of consecutive values: each lies as far above u[s]
      as it lies after it. */
  predicate ConsecutiveSeg(u: seq<int>, s: int, e: int) {
    0 <= s <= e <= |u| && forall k :: s <= k < e ==> u[k] == u[s] + (k - s)
  }

  /** u[s..s+len] is a longest run, and no run of that length starts earlier. */
  ghost predicate FirstLongestRun(u: seq<int>, s: int, len: int) {
    ConsecutiveSeg(u, s, s + len) &&
    (forall s', e' :: ConsecutiveSeg(u, s', e') ==> e' - s' <= len) &&
    (forall s', e' :: ConsecutiveSeg(u, s', e') && e' - s' == len ==> s <= s')
  }

  /** The scan of lines 96-104 as a recursion: the current run is u[cs..i],
      the longest kept so far is u[bs..bs+bl]. */
  function RunScan(u: seq<int>, i: nat, cs: nat, bs: nat, bl: nat): (nat, nat)
    requires cs <= i <= |u|
    decreases |u| - i
  {
    if i == |u| then (if i - cs > bl then (cs, i - cs) else (bs, bl))
    else if i == cs || u[i] == u[i - 1] + 1 then RunScan(u, i + 1, cs, bs, bl)
    else if i - cs > bl then RunScan(u, i + 1, i, cs, i - cs)
    else RunScan(u, i + 1, i, bs, bl)
  }

  ghost predicate ScanInvariant(u: seq<int>, i: nat, cs: nat, bs: nat, bl: nat) {
    cs <= i <= |u| && bs + bl <= cs && (|u| > 0 ==> cs < |u|) &&
    ConsecutiveSeg(u, cs, i) && ConsecutiveSeg(u, bs, bs + bl) &&
    (cs == 0 || u[cs] != u[cs - 1] + 1) &&
    (forall s, e :: ConsecutiveSeg(u, s, e) && e <= cs ==> e - s <= bl) &&
    (forall s, e :: ConsecutiveSeg(u, s, e) && e <= cs && e - s == bl ==> bs <= s)
  }

  /** A run cannot reach across a position where the values are not consecutive. */
  lemma NoCrossing(u: seq<int>, s: int, e: int, cs: int)
    requires ConsecutiveSeg(u, s, e) && 0 < cs < |u| && u[cs] != u[cs - 1] + 1
    ensures e <= cs || cs <= s
  {
  }

  /** At the end of the hand the scan's answer is the first longest run. */
  lemma ScanEnd(u: seq<int>, cs: nat, bs: nat, bl: nat)
    requires ScanInvariant(u, |u|, cs, bs, bl)
    ensures var (s, len) := if |u| - cs > bl then (cs, |u| - cs) else (bs, bl);
      s + len <= |u| && (|u| > 0 ==> len >= 1) && FirstLongestRun(u, s, len)
  {
    var (s, len) := if |u| - cs > bl then (cs, |u| - cs) else (bs, bl);
    forall s', e' | ConsecutiveSeg(u, s', e')
      ensures e' - s' <= len && (e' - s' == len ==> s <= s')
    {
      if cs > 0 { NoCrossing(u, s', e', cs); }
    }
  }

  /** A value that breaks the current run closes it, keeping it when it is
      strictly longer than the longest so far. */
  lemma ScanBreak(u: seq<int>, i: nat, cs: nat, bs: nat, bl: nat)
    requires ScanInvariant(u, i, cs, bs, bl) && i < |u| && i != cs && u[i] != u[i - 1] + 1
    ensures var (bs', bl') := if i - cs > bl then (cs, i - cs) else (bs, bl);
      ScanInvariant(u, i + 1, i, bs', bl')
  {
    var (bs', bl') := if i - cs > bl then (cs, i - cs) else (bs, bl);
    forall s', e' | ConsecutiveSeg(u, s', e') && e' <= i
      ensures e' - s' <= bl' && (e' - s' == bl' ==> bs' <= s')
    {
      if cs > 0 { NoCrossing(u, s', e', cs); }
    }
  }

  lemma {:induction false} RunScanFindsFirstLongest(u: seq<int>, i: nat, cs: nat, bs: nat, bl: nat)
    requires ScanInvariant(u, i, cs, bs, bl)
    ensures var r := RunScan(u, i, cs, bs, bl);
      r.0 + r.1 <= |u| && (|u| > 0 ==> r.1 >= 1) && FirstLongestRun(u, r.0, r.1)
    decreases |u| - i
  {
    if i == |u| {
      ScanEnd(u, cs, bs, bl);
    } else if i == cs || u[i] == u[i - 1] + 1 {
      assert ScanInvariant(u, i + 1, cs, bs, bl);
      RunScanFindsFirstLongest(u, i + 1, cs, bs, bl);
    } else {
      ScanBreak(u, i, cs, bs, bl);
      var (bs', bl') := if i - cs > bl then (cs, i - cs) else (bs, bl);
      RunScanFindsFirstLongest(u, i + 1, i, bs', bl');
    }
  }

  /** `longestSeq` as u[s..s+len]: the first of the longest runs of
      consecutive values. */
  function LongestRun(u: seq<int>): (r: (nat, nat))
    ensures r.0 + r.1 <= |u| && (|u| > 0 ==> r.1 >= 1)
    ensures FirstLongestRun(u, r.0, r.1)
  {
    RunScanFindsFirstLongest(u, 0, 0, 0, 0);
    RunScan(u, 0, 0, 0, 0)
  }

  // ---------------------------------------------------------------------
  // Kept positions: `dice.map((d, i) => keep(d) ? i : -1).filter(i => i !== -1)`
  // ---------------------------------------------------------------------

  datatype KeepRule = FaceIs(face: int) | FaceIn(run: seq<int>) | AtLeast(least: int)

  predicate Keeps(rule: KeepRule, d: int) {
    match rule
    case FaceIs(f) => d == f
    case FaceIn(run) => d in run
    case AtLeast(t) => d >= t
  }

  /** The positions, in ascending order, whose die the rule keeps. */
  function KeptPositions(dice: seq<int>, rule: KeepRule): (r: seq<int>)
    ensures Increasing(r) && |r| <= |dice|
    ensures forall k :: 0 <= k < |r| ==> 0 <= r[k] < |dice|
    ensures forall i :: 0 <= i < |dice| ==> (i in r <==> Keeps(rule, dice[i]))
  {
    if dice == [] then []
    else
      var front := KeptPositions(dice[..|dice| - 1], rule);
      assert forall i :: 0 <= i < |dice| - 1 ==> dice[..|dice| - 1][i] == dice[i];
      front + (if Keeps(rule, dice[|dice| - 1]) then [|dice| - 1] else [])
  }

  // ---------------------------------------------------------------------
  // The decision procedure
  // ---------------------------------------------------------------------

  datatype Move = Roll(keptIndices: seq<int>) | Submit(category: Category) | Hold

  /** Categories worth taking when the rolls are used up, best first. */
  const Priorities: seq<Category> :=
    [Yahtzee, LargeStraight, SmallStraight, FullHouse,
     Sixes, Fives, FourOfAKind, ThreeOfAKind, Fours, Threes, Twos, Ones, Chance]

  /** Categories to scratch when nothing scores, cheapest first. */
  const SacrificeOrder: seq<Category> :=
    [Ones, Twos, Threes, Fours, Fives, Sixes,
     Yahtzee, FourOfAKind, ThreeOfAKind, FullHouse, SmallStraight, LargeStraight]

  predicate AllUnrolled(dice: seq<int>) {
    forall i :: 0 <= i < |dice| ==> dice[i] == 0
  }

  /** Open and worth more than nothing. */
  predicate Worth(dice: seq<int>, sc: Scorecard, c: Category) {
    IsOpen(sc, c) && PossibleScore(c, dice) > 0
  }

  /** The first position from j on in `Priorities` that is worth taking. */
  function FirstWorth(dice: seq<int>, sc: Scorecard, j: nat): (r: Option<nat>)
    requires j <= |Priorities|
    ensures r.Some? ==> j <= r.value < |Priorities| && Worth(dice, sc, Priorities[r.value])
    ensures r.Some? ==> forall k :: j <= k < r.value ==> !Worth(dice, sc, Priorities[k])
    ensures r.None? ==> forall k :: j <= k < |Priorities| ==> !Worth(dice, sc, Priorities[k])
    decreases |Priorities| - j
  {
    if j == |Priorities| then None
    else if Worth(dice, sc, Priorities[j]) then Some(j)
    else FirstWorth(dice, sc, j + 1)
  }

  /** The first position from j on in `SacrificeOrder` that is still open. */
  function FirstOpen(sc: Scorecard, j: nat): (r: Option<nat>)
    requires j <= |SacrificeOrder|
    ensures r.Some? ==> j <= r.value < |SacrificeOrder| && IsOpen(sc, SacrificeOrder[r.value])
    ensures r.Some? ==> forall k :: j <= k < r.value ==> !IsOpen(sc, SacrificeOrder[k])
    ensures r.None? ==> forall k :: j <= k < |SacrificeOrder| ==> !IsOpen(sc, SacrificeOrder[k])
    decreases |SacrificeOrder| - j
  {
    if j == |SacrificeOrder| then None
    else if IsOpen(sc, SacrificeOrder[j]) then Some(j)
    else FirstOpen(sc, j + 1)
  }

  /** The three immediate submissions of phase 1 do not apply. */
  predicate NoImmediateSubmit(dice: seq<int>, sc: Scorecard) {
    !(HasCount(dice, 5) && IsOpen(sc, Yahtzee)) &&
    !(PossibleScore(LargeStraight, dice) == 40 && IsOpen(sc, LargeStraight)) &&
    !(PossibleScore(FullHouse, dice) == 25 && IsOpen(sc, FullHouse))
  }

  /** Phase 2: which dice to keep for the next roll. */
  function RollStrategy(dice: seq<int>, sc: Scorecard): Move
    requires ValidDice(dice)
  {
    var mostCommonNum := MostCommon(dice);
    var countOfMostCommon := Count(dice, mostCommonNum);
    if countOfMostCommon >= 3 && IsOpen(sc, FourOfAKind) then Roll(KeptPositions(dice, FaceIs(mostCommonNum)))
    else if countOfMostCommon >= 2 then Roll(KeptPositions(dice, FaceIs(mostCommonNum)))
    else
      var u := UniqueSorted(dice);
      var (s, len) := LongestRun(u);
      if len >= 3 && (IsOpen(sc, SmallStraight) || IsOpen(sc, LargeStraight)) then
        Roll(KeptPositions(dice, FaceIn(u[s..s + len])))
      else
        var high := KeptPositions(dice, AtLeast(4));
        if 0 < |high| < 5 then Roll(high) else Roll([])
  }

  /** Phase 3: no rolls left, a category must be filed. */
  function ForcedSubmit(dice: seq<int>, sc: Scorecard): Move {
    match FirstWorth(dice, sc, 0)
    case Some(j) => Submit(Priorities[j])
    case None =>
      if IsOpen(sc, Chance) then Submit(Chance)
      else match FirstOpen(sc, 0)
        case Some(j) => Submit(SacrificeOrder[j])
        case None => Hold
  }

  /** `getBotMove(dice, rollsLeft, scorecard)` as a function of its inputs. */
  function BotMove(dice: seq<int>, rollsLeft: int, sc: Scorecard): Move
    requires ValidDice(dice)
  {
    if AllUnrolled(dice) then Roll([])
    else if HasCount(dice, 5) && IsOpen(sc, Yahtzee) then Submit(Yahtzee)
    else if PossibleScore(LargeStraight, dice) == 40 && IsOpen(sc, LargeStraight) then Submit(LargeStraight)
    else if PossibleScore(FullHouse, dice) == 25 && IsOpen(sc, FullHouse) then Submit(FullHouse)
    else if rollsLeft > 0 then RollStrategy(dice, sc)
    else ForcedSubmit(dice, sc)
  }


  // ---------------------------------------------------------------------
  // What the decision procedure promises
  // ---------------------------------------------------------------------

  /** Three consecutive faces show. */
  predicate ThreeAt(dice: seq<int>, i: int, j: int, k: int) {
    0 <= i < |dice| && 0 <= j < |dice| && 0 <= k < |dice| &&
    dice[j] == dice[i] + 1 && dice[k] == dice[i] + 2
  }

  predicate HasThreeInARow(dice: seq<int>) {
    exists i, j, k | 0 <= i < |dice| && 0 <= j < |dice| && 0 <= k < |dice| :: ThreeAt(dice, i, j, k)
  }

  /** The positions of three consecutive faces in the hand. */
  lemma ThreeWitness(dice: seq<int>) returns (i: int, j: int, k: int)
    requires HasThreeInARow(dice)
    ensures 0 <= i < |dice| && 0 <= j < |dice| && 0 <= k < |dice| && ThreeAt(dice, i, j, k)
  {
    i, j, k :| 0 <= i < |dice| && 0 <= j < |dice| && 0 <= k < |dice| && ThreeAt(dice, i, j, k);
  }

  lemma {:induction false} RunGivesThree(u: seq<int>, dice: seq<int>, s: int)
    requires forall y :: y in u <==> y in dice
    requires ConsecutiveSeg(u, s, s + 3)
    ensures HasThreeInARow(dice)
  {
    assert u[s + 1] == u[s] + 1 && u[s + 2] == u[s] + 2;
    assert u[s] in u && u[s + 1] in u && u[s + 2] in u;
    var i := IndexOf(dice, u[s]);
    var j := IndexOf(dice, u[s + 1]);
    var k := IndexOf(dice, u[s + 2]);
    assert ThreeAt(dice, i, j, k);
  }

  lemma {:induction false} ThreeGivesRun(u: seq<int>, dice: seq<int>, a: int) returns (s: int)
    requires Increasing(u)
    requires forall y :: y in u <==> y in dice
    requires a in dice && a + 1 in dice && a + 2 in dice
    ensures ConsecutiveSeg(u, s, s + 3)
  {
    var i0 := IndexOf(u, a);
    var i1 := IndexOf(u, a + 1);
    var i2 := IndexOf(u, a + 2);
    IncreasingOrder(u, i0, i1);
    IncreasingOrder(u, i1, i2);
    IncreasingGap(u, i0, i2);
    s := i0;
  }

  /** A run of three in the sorted distinct faces is three consecutive
      faces of the hand. */
  lemma LongRunGivesThree(dice: seq<int>)
    requires LongestRun(UniqueSorted(dice)).1 >= 3
    ensures HasThreeInARow(dice)
  {
    var u := UniqueSorted(dice);
    var r := LongestRun(u);
    assert ConsecutiveSeg(u, r.0, r.0 + 3);
    RunGivesThree(u, dice, r.0);
  }

  /** Three consecutive faces make the longest run at least 3 long. */
  lemma ThreeGivesLongRun(dice: seq<int>)
    requires HasThreeInARow(dice)
    ensures LongestRun(UniqueSorted(dice)).1 >= 3
  {
    var u := UniqueSorted(dice);
    var i, j, k := ThreeWitness(dice);
    assert dice[j] in dice && dice[k] in dice;
    var s := ThreeGivesRun(u, dice, dice[i]);
    assert LongestRun(u).1 >= 3;
  }

  /** The longest run of the sorted distinct faces reaches length 3 exactly
      when three consecutive faces show. */
  lemma LongRunIffThreeInARow(dice: seq<int>)
    ensures LongestRun(UniqueSorted(dice)).1 >= 3 <==> HasThreeInARow(dice)
  {
    if LongestRun(UniqueSorted(dice)).1 >= 3 {
      LongRunGivesThree(dice);
    }
    if HasThreeInARow(dice) {
      ThreeGivesLongRun(dice);
    }
  }

  /** `getBotMove`, with the run scan and the two category loops of the source. */
  method GetBotMove(dice: seq<int>, rollsLeft: int, scorecard: Scorecard) returns (move: Move)
    requires ValidDice(dice)
    ensures move == BotMove(dice, rollsLeft, scorecard)
  {
    if forall i | 0 <= i < |dice| :: dice[i] == 0 {
      return Roll([]);
    }
    if HasCount(dice, 5) && IsOpen(scorecard, Yahtzee) {
      return Submit(Yahtzee);
    }
    var large := CalculatePossibleScore(LargeStraight, dice);
    if large == 40 && IsOpen(scorecard, LargeStraight) {
      return Submit(LargeStraight);
    }
    var full := CalculatePossibleScore(FullHouse, dice);
    if full == 25 && IsOpen(scorecard, FullHouse) {
      return Submit(FullHouse);
    }

    if rollsLeft > 0 {
      move := ChooseKept(dice, scorecard);
    } else {
      move := ChooseCategory(dice, scorecard);
    }
  }

  /** Lines 77-119 of `getBotMove`: which dice to keep for the next roll. */
  method ChooseKept(dice: seq<int>, scorecard: Scorecard) returns (move: Move)
    requires ValidDice(dice)
    ensures move == RollStrategy(dice, scorecard)
  {
    var mostCommonNum := MostCommon(dice);
    var countOfMostCommon := Count(dice, mostCommonNum);
    if countOfMostCommon >= 3 && IsOpen(scorecard, FourOfAKind) {
      return Roll(KeptPositions(dice, FaceIs(mostCommonNum)));
    }
    if countOfMostCommon >= 2 {
      return Roll(KeptPositions(dice, FaceIs(mostCommonNum)));
    }

    var longestSeq := LongestSequence(UniqueSorted(dice));
    if |longestSeq| >= 3 && (IsOpen(scorecard, SmallStraight) || IsOpen(scorecard, LargeStraight)) {
      return Roll(KeptPositions(dice, FaceIn(longestSeq)));
    }
    var highDiceIndices := KeptPositions(dice, AtLeast(4));
    if 0 < |highDiceIndices| < 5 {
      return Roll(highDiceIndices);
    }
    return Roll([]);
  }

  /** Lines 94-104 of `getBotMove`: the scan for the longest run of
      consecutive values in the sorted distinct faces. */
  method LongestSequence(uniqueSorted: seq<int>) returns (longestSeq: seq<int>)
    ensures var (s, len) := LongestRun(uniqueSorted); longestSeq == uniqueSorted[s..s + len]
  {
    longestSeq := [];
    var currentSeq: seq<int> := [];
    ghost var cs: nat, bs: nat := 0, 0;
    var i := 0;
    while i < |uniqueSorted|
      invariant cs <= i <= |uniqueSorted| && bs + |longestSeq| <= |uniqueSorted|
      invariant currentSeq == uniqueSorted[cs..i]
      invariant longestSeq == uniqueSorted[bs..bs + |longestSeq|]
      invariant RunScan(uniqueSorted, i, cs, bs, |longestSeq|) == LongestRun(uniqueSorted)
    {
      if |currentSeq| == 0 || uniqueSorted[i] == currentSeq[|currentSeq| - 1] + 1 {
        currentSeq := currentSeq + [uniqueSorted[i]];
      } else {
        if |currentSeq| > |longestSeq| {
          longestSeq := currentSeq;
          bs := cs;
        }
        currentSeq := [uniqueSorted[i]];
        cs := i;
      }
      i := i + 1;
    }
    if |currentSeq| > |longestSeq| {
      longestSeq := currentSeq;
      bs := cs;
    }
  }

  /** Lines 123-148 of `getBotMove`: the category to file once no rolls are left. */
  method ChooseCategory(dice: seq<int>, scorecard: Scorecard) returns (move: Move)
    ensures move == ForcedSubmit(dice, scorecard)
  {
    for j := 0 to |Priorities|
      invariant FirstWorth(dice, scorecard, j) == FirstWorth(dice, scorecard, 0)
    {
      var cat := Priorities[j];
      if IsOpen(scorecard, cat) {
        var score := CalculatePossibleScore(cat, dice);
        if score > 0 {
          return Submit(cat);
        }
      }
    }
    if IsOpen(scorecard, Chance) {
      return Submit(Chance);
    }
    for j := 0 to |SacrificeOrder|
      invariant FirstOpen(scorecard, j) == FirstOpen(scorecard, 0)
    {
      if IsOpen(scorecard, SacrificeOrder[j]) {
        return Submit(SacrificeOrder[j]);
      }
    }
    return Hold;
  }

  /** A hand not rolled yet is rolled in full, whatever the rolls left and
      the scorecard. */
  lemma BotRollsUnrolledHand(dice: seq<int>, rollsLeft: int, sc: Scorecard)
    requires ValidDice(dice) && AllUnrolled(dice)
    ensures BotMove(dice, rollsLeft, sc) == Roll([])
  {
  }

  /** Phase 2 always rolls, keeping an ascending list of valid positions. */
  lemma RollStrategyWellFormed(dice: seq<int>, sc: Scorecard)
    requires ValidDice(dice)
    ensures var move := RollStrategy(dice, sc);
      move.Roll? && Increasing(move.keptIndices) &&
      forall k :: 0 <= k < |move.keptIndices| ==> 0 <= move.keptIndices[k] < |dice|
  {
  }

  /** Phase 3 files only open categories of the game, and never rolls. */
  lemma ForcedSubmitWellFormed(dice: seq<int>, sc: Scorecard)
    ensures var move := ForcedSubmit(dice, sc);
      !move.Roll? && (move.Submit? ==> IsOpen(sc, move.category) && move.category in AllCategories)
  {
    assert forall k :: 0 <= k < |Priorities| ==> Priorities[k] in AllCategories;
    assert forall k :: 0 <= k < |SacrificeOrder| ==> SacrificeOrder[k] in AllCategories;
  }

  /** Every submission names an open real category; every roll keeps an
      ascending list of valid positions; the bot holds only when all
      thirteen categories are filled. */
  lemma BotMoveWellFormed(dice: seq<int>, rollsLeft: int, sc: Scorecard)
    requires ValidDice(dice)
    ensures var move := BotMove(dice, rollsLeft, sc);
      (move.Submit? ==> IsOpen(sc, move.category) && move.category in AllCategories) &&
      (move.Roll? ==> Increasing(move.keptIndices) &&
                      forall k :: 0 <= k < |move.keptIndices| ==> 0 <= move.keptIndices[k] < |dice|) &&
      (move.Hold? ==> forall k :: 0 <= k < |AllCategories| ==> IsFilled(sc, AllCategories[k]))
  {
    if AllUnrolled(dice) {
    } else if HasCount(dice, 5) && IsOpen(sc, Yahtzee) {
      assert AllCategories[12] == Yahtzee;
    } else if PossibleScore(LargeStraight, dice) == 40 && IsOpen(sc, LargeStraight) {
      assert AllCategories[10] == LargeStraight;
    } else if PossibleScore(FullHouse, dice) == 25 && IsOpen(sc, FullHouse) {
      assert AllCategories[8] == FullHouse;
    } else if rollsLeft > 0 {
      RollStrategyWellFormed(dice, sc);
    } else {
      ForcedSubmitWellFormed(dice, sc);
      ForcedHoldIffAllFilled(dice, sc);
    }
  }

  /** With rolls left and a face showing twice or more, the bot keeps
      exactly the dice showing the most common face, the larger face
      winning a tie, and rerolls the rest. */
  lemma BotKeepsTopFace(dice: seq<int>, rollsLeft: int, sc: Scorecard, m: int)
    requires ValidDice(dice) && !AllUnrolled(dice) && rollsLeft > 0 && NoImmediateSubmit(dice, sc)
    requires exists i, j :: 0 <= i < j < |dice| && dice[i] == dice[j]
    requires IsTopFace(dice, m)
    ensures BotMove(dice, rollsLeft, sc) == Roll(KeptPositions(dice, FaceIs(m)))
    ensures forall i :: 0 <= i < |dice| ==>
      (i in BotMove(dice, rollsLeft, sc).keptIndices <==> dice[i] == m)
  {
    TopFaceUnique(dice, MostCommon(dice), m);
    var i, j :| 0 <= i < j < |dice| && dice[i] == dice[j];
    CountTwo(dice, dice[i]);
  }

  lemma SampleFourFivesCounts()
    ensures forall i :: 0 <= i < 5 ==> Count([5, 5, 5, 5, 2], [5, 5, 5, 5, 2][i]) == if i < 4 then 4 else 1
  {
    var d := [5, 5, 5, 5, 2];
    assert d[1..] == [5, 5, 5, 2] && d[2..] == [5, 5, 2] && d[3..] == [5, 2] && d[4..] == [2];
    assert Count(d, 5) == 4 && Count(d, 2) == 1;
  }

  /** [5, 5, 5, 5, 2] on an empty scorecard reaches the rolling phase with
      5 as its top face. */
  lemma SampleFourFivesReachesRoll()
    ensures ValidDice([5, 5, 5, 5, 2]) && !AllUnrolled([5, 5, 5, 5, 2])
    ensures exists i, j :: 0 <= i < j < 5 && [5, 5, 5, 5, 2][i] == [5, 5, 5, 5, 2][j]
    ensures NoImmediateSubmit([5, 5, 5, 5, 2], []) && IsTopFace([5, 5, 5, 5, 2], 5)
  {
    var d := [5, 5, 5, 5, 2];
    assert d[0] == d[1] && d[0] != 0;
    SampleFourFivesCounts();
    assert !HasFiveInARow(d) by {
      forall i, j, k, l, m ensures !FiveAt(d, i, j, k, l, m) {
      }
    }
    assert d[0] == 5;
  }

  /** Appending a die appends its position when the rule keeps it. */
  lemma KeptSnoc(dice: seq<int>, rule: KeepRule, x: int)
    ensures KeptPositions(dice + [x], rule) ==
      KeptPositions(dice, rule) + if Keeps(rule, x) then [|dice|] else []
  {
    assert (dice + [x])[..|dice|] == dice;
  }

  /** When the rule keeps every die, every position is kept, in order. */
  lemma {:induction false} KeptWhenAllKept(dice: seq<int>, rule: KeepRule)
    requires forall i :: 0 <= i < |dice| ==> Keeps(rule, dice[i])
    ensures |KeptPositions(dice, rule)| == |dice|
    ensures forall k :: 0 <= k < |dice| ==> KeptPositions(dice, rule)[k] == k
  {
    if dice != [] {
      var front := dice[..|dice| - 1];
      KeptWhenAllKept(front, rule);
      KeptSnoc(front, rule, dice[|dice| - 1]);
      assert front + [dice[|dice| - 1]] == dice;
    }
  }

  lemma SampleFourFivesKept()
    ensures KeptPositions([5, 5, 5, 5, 2], FaceIs(5)) == [0, 1, 2, 3]
  {
    var fives := [5, 5, 5, 5];
    KeptWhenAllKept(fives, FaceIs(5));
    KeptSnoc(fives, FaceIs(5), 2);
    assert fives + [2] == [5, 5, 5, 5, 2];
  }

  /** [5, 5, 5, 5, 2] with a roll left keeps the four fives. */
  lemma SampleKeepFourFives()
    ensures BotMove([5, 5, 5, 5, 2], 1, []) == Roll([0, 1, 2, 3])
  {
    SampleFourFivesReachesRoll();
    SampleFourFivesKept();
    BotKeepsTopFace([5, 5, 5, 5, 2], 1, [], 5);
  }

  /** With no face twice and no run worth chasing, phase 2 falls back to
      keeping the high dice. */
  lemma {:induction false} RollFallsBackToHighDice(dice: seq<int>, sc: Scorecard)
    requires ValidDice(dice)
    requires forall i, j :: 0 <= i < j < |dice| ==> dice[i] != dice[j]
    requires !HasThreeInARow(dice) || (IsFilled(sc, SmallStraight) && IsFilled(sc, LargeStraight))
    ensures var high := KeptPositions(dice, AtLeast(4));
      RollStrategy(dice, sc) == if 0 < |high| < 5 then Roll(high) else Roll([])
  {
    var m := MostCommon(dice);
    CountTwo(dice, m);
    LongRunIffThreeInARow(dice);
  }

  /** Five ascending positions of a five-die hand are all the positions. */
  lemma {:induction false} AscendingPositionsFill(r: seq<int>)
    requires Increasing(r) && forall k :: 0 <= k < |r| ==> 0 <= r[k] < 5
    ensures |r| == 5 ==> forall p :: 0 <= p < 5 ==> p in r
  {
    if |r| == 5 {
      forall p | 0 <= p < 5 ensures r[p] == p {
        IncreasingGap(r, 0, p);
        IncreasingGap(r, p, 4);
      }
      forall p | 0 <= p < 5 ensures p in r {
        assert r[p] == p;
      }
    }
  }

  /** When some die is low, the high positions are fewer than five. */
  lemma {:induction false} HighDiceNotAll(dice: seq<int>, i: int)
    requires |dice| == 5 && 0 <= i < 5 && dice[i] < 4
    ensures |KeptPositions(dice, AtLeast(4))| < 5
  {
    AscendingPositionsFill(KeptPositions(dice, AtLeast(4)));
  }

  /** With rolls left, no face twice and no run worth chasing, only dice
      showing 4 or more are kept, never all five; when some die is low,
      every high die is kept. */
  lemma BotHighDiceFallback(dice: seq<int>, rollsLeft: int, sc: Scorecard)
    requires ValidDice(dice) && !AllUnrolled(dice) && rollsLeft > 0 && NoImmediateSubmit(dice, sc)
    requires forall i, j :: 0 <= i < j < |dice| ==> dice[i] != dice[j]
    requires !HasThreeInARow(dice) || (IsFilled(sc, SmallStraight) && IsFilled(sc, LargeStraight))
    ensures BotMove(dice, rollsLeft, sc).Roll?
    ensures var k := BotMove(dice, rollsLeft, sc).keptIndices;
      |k| < 5 && (forall i :: 0 <= i < |dice| ==> (i in k ==> dice[i] >= 4))
    ensures var k := BotMove(dice, rollsLeft, sc).keptIndices;
      (exists i :: 0 <= i < |dice| && dice[i] < 4) ==>
        forall i :: 0 <= i < |dice| && dice[i] >= 4 ==> i in k
  {
    RollFallsBackToHighDice(dice, sc);
    if exists i :: 0 <= i < |dice| && dice[i] < 4 {
      var i :| 0 <= i < |dice| && dice[i] < 4;
      HighDiceNotAll(dice, i);
    }
  }

  /** Every category of the game is in the priority list or is chance. */
  lemma {:induction false} FilledWhenNothingOpen(sc: Scorecard)
    requires FirstOpen(sc, 0).None? && IsFilled(sc, Chance)
    ensures forall k :: 0 <= k < |AllCategories| ==> IsFilled(sc, AllCategories[k])
  {
    forall k | 0 <= k < |AllCategories| ensures IsFilled(sc, AllCategories[k]) {
      if AllCategories[k] != Chance {
        var p :| 0 <= p < |SacrificeOrder| && SacrificeOrder[p] == AllCategories[k];
      }
    }
  }

  /** Every category of the game is filled, named one by one. */
  lemma AllFilledNamed(sc: Scorecard)
    requires forall k :: 0 <= k < |AllCategories| ==> IsFilled(sc, AllCategories[k])
    ensures forall c :: c in AllCategories ==> IsFilled(sc, c)
  {
    forall c | c in AllCategories ensures IsFilled(sc, c) {
      var k :| 0 <= k < |AllCategories| && AllCategories[k] == c;
    }
  }

  /** Phase 3 holds exactly when every category is filled. */
  lemma {:induction false} ForcedHoldIffAllFilled(dice: seq<int>, sc: Scorecard)
    ensures ForcedSubmit(dice, sc) == Hold <==>
      forall k :: 0 <= k < |AllCategories| ==> IsFilled(sc, AllCategories[k])
  {
    if ForcedSubmit(dice, sc) == Hold {
      FilledWhenNothingOpen(sc);
    }
    if forall k :: 0 <= k < |AllCategories| ==> IsFilled(sc, AllCategories[k]) {
      AllFilledNamed(sc);
      assert forall c :: c in SacrificeOrder ==> c in AllCategories;
      assert forall c :: c in Priorities ==> c in AllCategories;
      assert Chance in AllCategories;
    }
  }

  /** Phase 3 never scratches while chance is open on a rolled hand. */
  lemma {:induction false} ForcedScoresWhileChanceOpen(dice: seq<int>, sc: Scorecard)
    requires ValidDice(dice) && !AllUnrolled(dice) && IsOpen(sc, Chance)
    ensures ForcedSubmit(dice, sc).Submit?
    ensures PossibleScore(ForcedSubmit(dice, sc).category, dice) > 0
  {
    SumPositive(dice);
    assert Worth(dice, sc, Priorities[12]);
  }

  /** A priority category that phase 3 files is the first one worth taking. */
  lemma {:induction false} ForcedTakesFirstWorth(dice: seq<int>, sc: Scorecard, j: int)
    requires 0 <= j < |Priorities| && ForcedSubmit(dice, sc) == Submit(Priorities[j])
    requires Worth(dice, sc, Priorities[j])
    ensures forall k :: 0 <= k < j ==> !Worth(dice, sc, Priorities[k])
  {
    var f := FirstWorth(dice, sc, 0);
    assert f.Some?;
    assert Priorities[f.value] == Priorities[j];
  }

  /** With no rolls left the bot files the first category of its priority
      list that scores, and never scratches while chance is open (chance
      scores on any rolled hand); it holds exactly when every category is
      filled. */
  lemma BotForcedChoice(dice: seq<int>, rollsLeft: int, sc: Scorecard)
    requires ValidDice(dice) && !AllUnrolled(dice) && rollsLeft <= 0 && NoImmediateSubmit(dice, sc)
    ensures BotMove(dice, rollsLeft, sc) == ForcedSubmit(dice, sc)
    ensures BotMove(dice, rollsLeft, sc) == Hold <==>
      forall k :: 0 <= k < |AllCategories| ==> IsFilled(sc, AllCategories[k])
    ensures IsOpen(sc, Chance) ==>
      BotMove(dice, rollsLeft, sc).Submit? && PossibleScore(BotMove(dice, rollsLeft, sc).category, dice) > 0
  {
    ForcedHoldIffAllFilled(dice, sc);
    if IsOpen(sc, Chance) {
      ForcedScoresWhileChanceOpen(dice, sc);
    }
  }
}
