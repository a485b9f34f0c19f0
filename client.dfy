/**
 * The mobile client's share of the game logic: the score preview shown
 * before a category is submitted, and selecting which dice to keep.
 */
module Client {
  import opened Categories
  import opened Dice
  import BotLogic
  import Server

  /** `calculateScore(category, currentDice)`, the preview of what a
      category is worth, switching on the category's wire name. */
  method CalculateScore(category: string, currentDice: seq<int>) returns (r: int)
    ensures r == BotLogic.PossibleScore(FromName(category), currentDice)
  {
    var counts := CountFaces(currentDice);
    var sum := Sum(currentDice);
    var uniqueDice := UniqueSorted(currentDice);
    var hasSmallStraight := ScanWindows(uniqueDice);
    var hasLargeStraight := false;
    if |uniqueDice| == 5 {
      hasLargeStraight := IsConsecutive(uniqueDice);
    }
    match category {
      case "ones" => r := Lookup(counts, 1) * 1;
      case "twos" => r := Lookup(counts, 2) * 2;
      case "threes" => r := Lookup(counts, 3) * 3;
      case "fours" => r := Lookup(counts, 4) * 4;
      case "fives" => r := Lookup(counts, 5) * 5;
      case "sixes" => r := Lookup(counts, 6) * 6;
      case "three_of_a_kind" =>
        CountsTableValues(currentDice, counts, 3);
        r := if SomeValueAtLeast(counts, 3) then sum else 0;
      case "four_of_a_kind" =>
        CountsTableValues(currentDice, counts, 4);
        r := if SomeValueAtLeast(counts, 4) then sum else 0;
      case "full_house" =>
        CountsTableValues(currentDice, counts, 2);
        CountsTableValues(currentDice, counts, 3);
        CountsTableValues(currentDice, counts, 5);
        r := if (IncludesValue(counts, 3) && IncludesValue(counts, 2)) || IncludesValue(counts, 5) then 25 else 0;
      case "small_straight" =>
        WindowIffFourInARow(currentDice);
        r := if hasSmallStraight then 30 else 0;
      case "large_straight" =>
        LargeIffFiveInARow(currentDice);
        r := if hasLargeStraight then 40 else 0;
      case "chance" => r := sum;
      case "yahtzee" =>
        CountsTableValues(currentDice, counts, 5);
        r := if IncludesValue(counts, 5) then 50 else 0;
      case _ => r := 0;
    }
  }

  /** The preview equals the score the server records exactly on the
      categories the server scores; on the others the server records 0. */
  lemma PreviewAgainstRecorded(category: string, dice: seq<int>)
    ensures Server.ScoredByServer(FromName(category)) ==>
      Server.ServerScore(FromName(category), dice) == BotLogic.PossibleScore(FromName(category), dice)
    ensures !Server.ScoredByServer(FromName(category)) ==> Server.ServerScore(FromName(category), dice) == 0
  {
    Server.ServerAgreesWithFullScoring(FromName(category), dice);
  }

  /** The preview of "full_house" on [2, 2, 2, 5, 5] shows 25 while the
      server records 0 for it. */
  lemma PreviewOverstatesFullHouse()
    ensures BotLogic.PossibleScore(FromName("full_house"), [2, 2, 2, 5, 5]) == 25
    ensures Server.ServerScore(FromName("full_house"), [2, 2, 2, 5, 5]) == 0
  {
    Server.ServerRecordsZeroForFullHouse();
  }

  // ---------------------------------------------------------------------
  // Keeping dice (lines 207-218)
  // ---------------------------------------------------------------------

  /** `keptIndices.filter(i => i !== index)` */
  function Without(kept: seq<int>, index: int): (r: seq<int>)
    ensures |r| <= |kept|
    ensures forall j :: j in r <==> j in kept && j != index
  {
    if kept == [] then []
    else if kept[|kept| - 1] == index then Without(kept[..|kept| - 1], index)
    else Without(kept[..|kept| - 1], index) + [kept[|kept| - 1]]
  }

  /** The new kept list: `index` removed when it is there, appended at the
      end otherwise. */
  function Toggled(kept: seq<int>, index: int): seq<int> {
    if index in kept then Without(kept, index) else kept + [index]
  }

  predicate NoDuplicates(s: seq<int>) {
    forall i, j :: 0 <= i < j < |s| ==> s[i] != s[j]
  }

  /** Toggling flips the membership of `index` and of nothing else. */
  lemma ToggleFlips(kept: seq<int>, index: int)
    ensures index in Toggled(kept, index) <==> index !in kept
    ensures forall j :: j != index ==> (j in Toggled(kept, index) <==> j in kept)
  {
  }

  /** Removing a value keeps the others in their order. */
  lemma {:induction false} WithoutKeepsOrder(kept: seq<int>, index: int)
    requires index !in kept
    ensures Without(kept, index) == kept
  {
    if kept != [] {
      WithoutKeepsOrder(kept[..|kept| - 1], index);
      assert kept[..|kept| - 1] + [kept[|kept| - 1]] == kept;
    }
  }

  /** Filtering a list without duplicates leaves it without duplicates. */
  lemma {:induction false} WithoutNoDuplicates(kept: seq<int>, index: int)
    requires NoDuplicates(kept)
    ensures NoDuplicates(Without(kept, index))
  {
    if kept != [] {
      var front := kept[..|kept| - 1];
      var last := kept[|kept| - 1];
      assert NoDuplicates(front) by {
        forall i, j | 0 <= i < j < |front| ensures front[i] != front[j] {
          assert front[i] == kept[i] && front[j] == kept[j];
        }
      }
      WithoutNoDuplicates(front, index);
      assert last !in front by {
        forall i | 0 <= i < |front| ensures front[i] != last {
          assert front[i] == kept[i];
        }
      }
    }
  }

  /** Toggling never makes a position appear twice in the kept list. */
  lemma ToggleNoDuplicates(kept: seq<int>, index: int)
    requires NoDuplicates(kept)
    ensures NoDuplicates(Toggled(kept, index))
  {
    if index in kept {
      WithoutNoDuplicates(kept, index);
    }
  }

  /** Selecting a die and deselecting it again gives back the list it
      started from. */
  lemma ToggleTwice(kept: seq<int>, index: int)
    requires index !in kept
    ensures Toggled(Toggled(kept, index), index) == kept
  {
    var t := kept + [index];
    assert t[..|t| - 1] == kept;
    WithoutKeepsOrder(kept, index);
  }

  /** The game screen's selection state: the dice shown and the positions
      kept for the next roll. */
  class GameScreen {
    var dice: seq<int>
    var keptIndices: seq<int>

    constructor ()
      ensures dice == Server.Unrolled && keptIndices == []
    {
      dice := Server.Unrolled;
      keptIndices := [];
    }

    /** `toggleDie(index)`: an empty die (face 0) cannot be selected; any
        other index, also one past the hand, is toggled. */
    method ToggleDie(index: int)
      modifies this
      ensures dice == old(dice)
      ensures 0 <= index < |dice| && dice[index] == 0 ==> keptIndices == old(keptIndices)
      ensures !(0 <= index < |dice| && dice[index] == 0) ==> keptIndices == Toggled(old(keptIndices), index)
      ensures NoDuplicates(old(keptIndices)) ==> NoDuplicates(keptIndices)
    {
      if 0 <= index < |dice| && dice[index] == 0 {
        return;
      }
      var newKept: seq<int>;
      if index in keptIndices {
        newKept := Without(keptIndices, index);
      } else {
        newKept := keptIndices + [index];
      }
      if NoDuplicates(keptIndices) {
        ToggleNoDuplicates(keptIndices, index);
      }
      keptIndices := newKept;
    }
  }
}
