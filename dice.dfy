/**
 * Facts about a hand of dice shared by every scoring function of the game:
 * the counts table, the sum, the distinct faces in ascending order and the
 * two straight shapes.
 */
module Dice {

  /** A hand as the server keeps it: five positions, 0 for "not rolled yet",
      otherwise a face 1..6. */
  predicate ValidDice(dice: seq<int>) {
    |dice| == 5 && forall i :: 0 <= i < |dice| ==> 0 <= dice[i] <= 6
  }

  /** `counts[face] || 0` after `dice.forEach(d => counts[d] = (counts[d] || 0) + 1)` */
  function Count(dice: seq<int>, face: int): (n: nat)
    ensures n <= |dice|
  {
    if dice == [] then 0
    else (if dice[0] == face then 1 else 0) + Count(dice[1..], face)
  }

  /** `dice.reduce((a, b) => a + b, 0)` */
  function Sum(dice: seq<int>): int {
    if dice == [] then 0 else dice[0] + Sum(dice[1..])
  }

  /** `Object.values(counts).includes(k)`: some face occurs exactly k times. */
  predicate HasCount(dice: seq<int>, k: int) {
    exists i :: 0 <= i < |dice| && Count(dice, dice[i]) == k
  }

  /** `Object.values(counts).some(c => c >= k)` */
  predicate HasCountAtLeast(dice: seq<int>, k: int) {
    exists i :: 0 <= i < |dice| && Count(dice, dice[i]) >= k
  }

  /** `counts[face] || 0` */
  function Lookup(counts: map<int, nat>, face: int): nat {
    if face in counts then counts[face] else 0
  }

  /** The counts table: `dice.forEach(d => counts[d] = (counts[d] || 0) + 1)`. */
  method CountFaces(dice: seq<int>) returns (counts: map<int, nat>)
    ensures forall f :: f in counts <==> f in dice
    ensures forall f :: Lookup(counts, f) == Count(dice, f)
  {
    counts := map[];
    var i := 0;
    while i < |dice|
      invariant 0 <= i <= |dice|
      invariant forall f :: f in counts <==> f in dice[..i]
      invariant forall f :: Lookup(counts, f) == Count(dice[..i], f)
    {
      var d := dice[i];
      counts := counts[d := Lookup(counts, d) + 1];
      assert dice[..i + 1] == dice[..i] + [d];
      forall f ensures Lookup(counts, f) == Count(dice[..i + 1], f) {
        CountSnoc(dice[..i], d, f);
      }
      i := i + 1;
    }
    assert dice[..i] == dice;
  }

  /** `Object.values(counts).includes(v)` */
  predicate IncludesValue(counts: map<int, nat>, v: int) {
    exists f | f in counts :: counts[f] == v
  }

  /** `Object.values(counts).some(c => c >= v)` */
  predicate SomeValueAtLeast(counts: map<int, nat>, v: int) {
    exists f | f in counts :: counts[f] >= v
  }

  /** Asking the counts table about its values is asking how often the
      faces of the hand show. */
  lemma CountsTableValues(dice: seq<int>, counts: map<int, nat>, k: int)
    requires forall f :: f in counts <==> f in dice
    requires forall f :: Lookup(counts, f) == Count(dice, f)
    ensures IncludesValue(counts, k) <==> HasCount(dice, k)
    ensures SomeValueAtLeast(counts, k) <==> HasCountAtLeast(dice, k)
  {
    if IncludesValue(counts, k) {
      var f :| f in counts && counts[f] == k;
      var i := IndexOf(dice, f);
      assert Count(dice, dice[i]) == Lookup(counts, f);
    }
    if SomeValueAtLeast(counts, k) {
      var f :| f in counts && counts[f] >= k;
      var i := IndexOf(dice, f);
      assert Count(dice, dice[i]) == Lookup(counts, f);
    }
    if HasCount(dice, k) {
      var i :| 0 <= i < |dice| && Count(dice, dice[i]) == k;
      assert Lookup(counts, dice[i]) == k;
    }
    if HasCountAtLeast(dice, k) {
      var i :| 0 <= i < |dice| && Count(dice, dice[i]) >= k;
      assert Lookup(counts, dice[i]) >= k;
    }
  }

  lemma {:induction false} SumBounds(dice: seq<int>, lo: int, hi: int)
    requires forall i :: 0 <= i < |dice| ==> lo <= dice[i] <= hi
    ensures |dice| * lo <= Sum(dice) <= |dice| * hi
  {
    if dice != [] {
      SumBounds(dice[1..], lo, hi);
    }
  }

  /** A face occurs in every position exactly when its count is the length. */
  lemma {:induction false} CountAll(dice: seq<int>, face: int)
    ensures Count(dice, face) == |dice| <==> forall i :: 0 <= i < |dice| ==> dice[i] == face
  {
    if dice != [] {
      CountAll(dice[1..], face);
      if forall i :: 0 <= i < |dice| ==> dice[i] == face {
        assert forall i :: 0 <= i < |dice| - 1 ==> dice[1..][i] == face;
      }
      if Count(dice, face) == |dice| {
        forall i | 0 <= i < |dice| ensures dice[i] == face {
          if i > 0 { assert dice[i] == dice[1..][i - 1]; }
        }
      }
    }
  }

  /** A face counts at all exactly when it shows. */
  lemma {:induction false} CountPositive(dice: seq<int>, face: int)
    ensures Count(dice, face) > 0 <==> face in dice
  {
    if dice != [] {
      CountPositive(dice[1..], face);
      assert dice == [dice[0]] + dice[1..];
    }
  }

  /** Counting over one more die. */
  lemma {:induction false} CountSnoc(dice: seq<int>, x: int, face: int)
    ensures Count(dice + [x], face) == Count(dice, face) + if x == face then 1 else 0
  {
    if dice != [] {
      CountSnoc(dice[1..], x, face);
      assert (dice + [x])[1..] == dice[1..] + [x];
    }
  }

  /** A face counts twice or more exactly when two positions show it. */
  lemma {:induction false} CountTwo(dice: seq<int>, x: int)
    ensures Count(dice, x) >= 2 <==> exists i, j :: 0 <= i < j < |dice| && dice[i] == x && dice[j] == x
  {
    if dice != [] {
      var tail := dice[1..];
      CountTwo(tail, x);
      if Count(dice, x) >= 2 {
        if dice[0] == x {
          CountPositive(tail, x);
          var j := IndexOf(tail, x);
          assert dice[j + 1] == x;
        } else {
          var i, j :| 0 <= i < j < |tail| && tail[i] == x && tail[j] == x;
          assert dice[i + 1] == x && dice[j + 1] == x;
        }
      }
      if exists i, j :: 0 <= i < j < |dice| && dice[i] == x && dice[j] == x {
        var i, j :| 0 <= i < j < |dice| && dice[i] == x && dice[j] == x;
        if i == 0 {
          assert tail[j - 1] == x;
          CountPositive(tail, x);
        } else {
          assert tail[i - 1] == x && tail[j - 1] == x;
        }
      }
    }
  }

  /** Faces that are never negative and not all zero add up to more than zero. */
  lemma {:induction false} SumPositive(dice: seq<int>)
    requires forall i :: 0 <= i < |dice| ==> dice[i] >= 0
    requires exists i :: 0 <= i < |dice| && dice[i] != 0
    ensures Sum(dice) > 0
  {
    var i :| 0 <= i < |dice| && dice[i] != 0;
    if i == 0 {
      SumNonNegative(dice[1..]);
    } else {
      assert dice[1..][i - 1] != 0;
      SumPositive(dice[1..]);
    }
  }

  lemma {:induction false} SumNonNegative(dice: seq<int>)
    requires forall i :: 0 <= i < |dice| ==> dice[i] >= 0
    ensures Sum(dice) >= 0
  {
    if dice != [] {
      SumNonNegative(dice[1..]);
    }
  }

  predicate Increasing(s: seq<int>) {
    forall i, j :: 0 <= i < j < |s| ==> s[i] < s[j]
  }

  /** Adds one value to a strictly increasing sequence, keeping it so. */
  function Insert(u: seq<int>, x: int): (r: seq<int>)
    requires Increasing(u)
    ensures Increasing(r)
    ensures forall y :: y in r <==> y in u || y == x
    ensures |r| <= |u| + 1
  {
    if u == [] then [x]
    else if x == u[0] then u
    else if x < u[0] then [x] + u
    else
      var t := Insert(u[1..], x);
      var r := [u[0]] + t;
      assert Increasing(r) by {
        forall k | 0 <= k < |t| ensures u[0] < t[k] {
          assert t[k] in t;
        }
        forall i, j | 0 <= i < j < |r| ensures r[i] < r[j] {
          assert r[j] == t[j - 1];
        }
      }
      r
  }

  /** `[...new Set(dice)].sort((a, b) => a - b)`: the distinct faces in
      ascending order (also the order of `Object.keys(counts)` for faces
      that are non-negative integers). */
  function UniqueSorted(dice: seq<int>): (u: seq<int>)
    ensures Increasing(u)
    ensures forall y :: y in u <==> y in dice
    ensures |u| <= |dice|
  {
    if dice == [] then []
    else Insert(UniqueSorted(dice[..|dice| - 1]), dice[|dice| - 1])
  }

  /** In a strictly increasing sequence values are at least as far apart
      as their positions. */
  lemma {:induction false} IncreasingGap(u: seq<int>, p: int, q: int)
    requires Increasing(u) && 0 <= p <= q < |u|
    ensures u[q] - u[p] >= q - p
    decreases q - p
  {
    if p < q {
      IncreasingGap(u, p + 1, q);
    }
  }

  /** `isConsecutive(arr)` */
  predicate Consecutive(arr: seq<int>) {
    forall i :: 0 <= i < |arr| - 1 ==> arr[i + 1] == arr[i] + 1
  }

  lemma {:induction false} ConsecutiveValues(arr: seq<int>, k: int)
    requires Consecutive(arr) && 0 <= k < |arr|
    ensures arr[k] == arr[0] + k
  {
    if k > 0 {
      ConsecutiveValues(arr, k - 1);
    }
  }

  /** The loop of `isConsecutive`, with its early return. */
  method IsConsecutive(arr: seq<int>) returns (b: bool)
    ensures b == Consecutive(arr)
  {
    var i := 0;
    while i < |arr| - 1
      invariant 0 <= i <= if |arr| == 0 then 0 else |arr| - 1
      invariant forall k :: 0 <= k < i ==> arr[k + 1] == arr[k] + 1
    {
      if arr[i + 1] != arr[i] + 1 {
        return false;
      }
      i := i + 1;
    }
    return true;
  }

  /** Positions i, j, k, l show the faces dice[i], dice[i]+1, dice[i]+2, dice[i]+3. */
  predicate FourAt(dice: seq<int>, i: int, j: int, k: int, l: int) {
    0 <= i < |dice| && 0 <= j < |dice| && 0 <= k < |dice| && 0 <= l < |dice| &&
    dice[j] == dice[i] + 1 && dice[k] == dice[i] + 2 && dice[l] == dice[i] + 3
  }

  /** Some four consecutive faces all show. */
  predicate HasFourInARow(dice: seq<int>) {
    exists i, j, k, l | 0 <= i < |dice| && 0 <= j < |dice| && 0 <= k < |dice| && 0 <= l < |dice| ::
      FourAt(dice, i, j, k, l)
  }

  /** Positions i, j, k, l, m show dice[i] .. dice[i]+4 and every face lies
      in that range: the distinct faces are exactly five consecutive values. */
  predicate FiveAt(dice: seq<int>, i: int, j: int, k: int, l: int, m: int) {
    FourAt(dice, i, j, k, l) && 0 <= m < |dice| && dice[m] == dice[i] + 4 &&
    forall p :: 0 <= p < |dice| ==> dice[i] <= dice[p] <= dice[i] + 4
  }

  predicate HasFiveInARow(dice: seq<int>) {
    exists i, j, k, l, m | 0 <= i < |dice| && 0 <= j < |dice| && 0 <= k < |dice| && 0 <= l < |dice| && 0 <= m < |dice| ::
      FiveAt(dice, i, j, k, l, m)
  }

  /** The positions of a small straight in the hand. */
  lemma FourWitness(dice: seq<int>) returns (i: int, j: int, k: int, l: int)
    requires HasFourInARow(dice)
    ensures FourAt(dice, i, j, k, l)
  {
    i, j, k, l :| FourAt(dice, i, j, k, l);
  }

  /** The positions of a large straight in the hand. */
  lemma FiveWitness(dice: seq<int>) returns (i: int, j: int, k: int, l: int, m: int)
    requires HasFiveInARow(dice)
    ensures FiveAt(dice, i, j, k, l, m)
  {
    i, j, k, l, m :| FiveAt(dice, i, j, k, l, m);
  }

  /** The 4-wide window of `u` starting at i is consecutive. */
  predicate WindowAt(u: seq<int>, i: int) {
    0 <= i <= |u| - 4 && Consecutive(u[i..i + 4])
  }

  /** Some 4-wide window of the sorted distinct faces is consecutive. */
  predicate SomeWindowConsecutive(u: seq<int>) {
    exists i :: 0 <= i <= |u| - 4 && WindowAt(u, i)
  }

  /** The small-straight loop: some 4-wide window of the sorted distinct
      faces is consecutive. */
  method ScanWindows(uniqueDice: seq<int>) returns (hasSmallStraight: bool)
    ensures hasSmallStraight == SomeWindowConsecutive(uniqueDice)
  {
    hasSmallStraight := false;
    if |uniqueDice| >= 4 {
      var i := 0;
      while i <= |uniqueDice| - 4
        invariant 0 <= i <= |uniqueDice| - 3
        invariant hasSmallStraight <==> exists k :: 0 <= k < i && WindowAt(uniqueDice, k)
      {
        var c := IsConsecutive(uniqueDice[i..i + 4]);
        assert c == WindowAt(uniqueDice, i);
        if c {
          hasSmallStraight := true;
        }
        i := i + 1;
      }
    }
  }

  /** Position of a value in a sequence that holds it. */
  lemma IndexOf(u: seq<int>, x: int) returns (k: int)
    requires x in u
    ensures 0 <= k < |u| && u[k] == x
  {
    k :| 0 <= k < |u| && u[k] == x;
  }

  /** In a strictly increasing sequence, the order of values is the order
      of their positions. */
  lemma IncreasingOrder(u: seq<int>, p: int, q: int)
    requires Increasing(u) && 0 <= p < |u| && 0 <= q < |u| && u[p] < u[q]
    ensures p < q
  {
  }

  lemma {:induction false} WindowGivesFour(u: seq<int>, dice: seq<int>, i: int)
    requires forall y :: y in u <==> y in dice
    requires WindowAt(u, i)
    ensures HasFourInARow(dice)
  {
    var w := u[i..i + 4];
    ConsecutiveValues(w, 1);
    ConsecutiveValues(w, 2);
    ConsecutiveValues(w, 3);
    assert w[0] in u && w[1] in u && w[2] in u && w[3] in u;
    var p0 := IndexOf(dice, w[0]);
    var p1 := IndexOf(dice, w[1]);
    var p2 := IndexOf(dice, w[2]);
    var p3 := IndexOf(dice, w[3]);
    assert FourAt(dice, p0, p1, p2, p3);
  }

  lemma {:induction false} FourGivesWindow(u: seq<int>, dice: seq<int>, a: int)
    requires Increasing(u)
    requires forall y :: y in u <==> y in dice
    requires a in dice && a + 1 in dice && a + 2 in dice && a + 3 in dice
    ensures SomeWindowConsecutive(u)
  {
    var i0 := IndexOf(u, a);
    var i1 := IndexOf(u, a + 1);
    var i2 := IndexOf(u, a + 2);
    var i3 := IndexOf(u, a + 3);
    IncreasingOrder(u, i0, i1);
    IncreasingOrder(u, i1, i2);
    IncreasingOrder(u, i2, i3);
    IncreasingGap(u, i0, i3);
    assert i3 == i0 + 3;
    IncreasingGap(u, i0, i0 + 1);
    IncreasingGap(u, i0 + 1, i3);
    IncreasingGap(u, i0, i0 + 2);
    IncreasingGap(u, i0 + 2, i3);
    assert u[i0 + 1] == a + 1 && u[i0 + 2] == a + 2;
    assert WindowAt(u, i0);
  }

  /** Looking for a consecutive window of the sorted distinct faces is the
      same as looking for four consecutive faces in the hand. */
  lemma WindowIffFourInARow(dice: seq<int>)
    ensures SomeWindowConsecutive(UniqueSorted(dice)) <==> HasFourInARow(dice)
  {
    var u := UniqueSorted(dice);
    if SomeWindowConsecutive(u) {
      var i :| 0 <= i <= |u| - 4 && WindowAt(u, i);
      WindowGivesFour(u, dice, i);
    }
    if HasFourInARow(dice) {
      var i, j, k, l := FourWitness(dice);
      assert dice[i] in dice && dice[j] in dice && dice[k] in dice && dice[l] in dice;
      FourGivesWindow(u, dice, dice[i]);
    }
  }

  lemma {:induction false} LargeGivesFive(u: seq<int>, dice: seq<int>)
    requires forall y :: y in u <==> y in dice
    requires |u| == 5 && Consecutive(u)
    ensures HasFiveInARow(dice)
  {
    ConsecutiveValues(u, 1);
    ConsecutiveValues(u, 2);
    ConsecutiveValues(u, 3);
    ConsecutiveValues(u, 4);
    assert u[0] in u && u[1] in u && u[2] in u && u[3] in u && u[4] in u;
    forall j | 0 <= j < |dice| ensures u[0] <= dice[j] <= u[0] + 4 {
      var k := IndexOf(u, dice[j]);
      ConsecutiveValues(u, k);
    }
    var p0 := IndexOf(dice, u[0]);
    var p1 := IndexOf(dice, u[1]);
    var p2 := IndexOf(dice, u[2]);
    var p3 := IndexOf(dice, u[3]);
    var p4 := IndexOf(dice, u[4]);
    assert FiveAt(dice, p0, p1, p2, p3, p4);
  }

  lemma {:induction false} FiveGivesLarge(u: seq<int>, dice: seq<int>, i: int, j: int, k: int, l: int, m: int)
    requires Increasing(u)
    requires forall y :: y in u <==> y in dice
    requires FiveAt(dice, i, j, k, l, m)
    ensures |u| == 5 && Consecutive(u)
  {
    var a := dice[i];
    assert dice[i] in dice && dice[j] in dice && dice[k] in dice && dice[l] in dice && dice[m] in dice;
    var i0 := IndexOf(u, a);
    var i1 := IndexOf(u, a + 1);
    var i2 := IndexOf(u, a + 2);
    var i3 := IndexOf(u, a + 3);
    var i4 := IndexOf(u, a + 4);
    IncreasingOrder(u, i0, i1);
    IncreasingOrder(u, i1, i2);
    IncreasingOrder(u, i2, i3);
    IncreasingOrder(u, i3, i4);
    assert u[0] in u && u[|u| - 1] in u;
    var f := IndexOf(dice, u[0]);
    var l := IndexOf(dice, u[|u| - 1]);
    IncreasingGap(u, 0, |u| - 1);
    assert |u| == 5;
    forall k | 0 <= k < 5 ensures u[k] == a + k {
      IncreasingGap(u, 0, k);
      IncreasingGap(u, k, 4);
    }
    assert Consecutive(u);
  }

  /** Five distinct sorted faces that are consecutive is the same as the
      hand's faces being exactly five consecutive values. */
  lemma LargeIffFiveInARow(dice: seq<int>)
    ensures (|UniqueSorted(dice)| == 5 && Consecutive(UniqueSorted(dice))) <==> HasFiveInARow(dice)
  {
    var u := UniqueSorted(dice);
    if |u| == 5 && Consecutive(u) {
      LargeGivesFive(u, dice);
    }
    if HasFiveInARow(dice) {
      var i, j, k, l, m := FiveWitness(dice);
      FiveGivesLarge(u, dice, i, j, k, l, m);
    }
  }
}
