/**
 * The thirteen scoring categories of the game, the wire names the client
 * sends for them, and the scorecard a player fills in.
 */
module Categories {

  /** A category name as received from a client. Any name outside the
      thirteen known ones is kept as `Other(name)`: every scoring function
      of the game maps such a name to 0. */
  datatype Category =
    | Ones | Twos | Threes | Fours | Fives | Sixes
    | ThreeOfAKind | FourOfAKind | FullHouse | SmallStraight | LargeStraight
    | Chance | Yahtzee
    | Other(name: string)

  /** The thirteen real categories, upper section first. */
  const AllCategories: seq<Category> :=
    [Ones, Twos, Threes, Fours, Fives, Sixes,
     ThreeOfAKind, FourOfAKind, FullHouse, SmallStraight, LargeStraight,
     Chance, Yahtzee]

  /** The wire names of the thirteen real categories. */
  const KnownNames: set<string> :=
    {"ones", "twos", "threes", "fours", "fives", "sixes",
     "three_of_a_kind", "four_of_a_kind", "full_house", "small_straight", "large_straight",
     "chance", "yahtzee"}

  /** The string the client and the scorecard object use for a category. */
  function Name(c: Category): string {
    match c
    case Ones => "ones"
    case Twos => "twos"
    case Threes => "threes"
    case Fours => "fours"
    case Fives => "fives"
    case Sixes => "sixes"
    case ThreeOfAKind => "three_of_a_kind"
    case FourOfAKind => "four_of_a_kind"
    case FullHouse => "full_house"
    case SmallStraight => "small_straight"
    case LargeStraight => "large_straight"
    case Chance => "chance"
    case Yahtzee => "yahtzee"
    case Other(n) => n
  }

  /** Reads a category name; the parse loses nothing, so two names give
      the same category only when they are the same string. */
  function FromName(s: string): (c: Category)
    ensures Name(c) == s
    ensures c.Other? <==> s !in KnownNames
  {
    if s == "ones" then Ones
    else if s == "twos" then Twos
    else if s == "threes" then Threes
    else if s == "fours" then Fours
    else if s == "fives" then Fives
    else if s == "sixes" then Sixes
    else if s == "three_of_a_kind" then ThreeOfAKind
    else if s == "four_of_a_kind" then FourOfAKind
    else if s == "full_house" then FullHouse
    else if s == "small_straight" then SmallStraight
    else if s == "large_straight" then LargeStraight
    else if s == "chance" then Chance
    else if s == "yahtzee" then Yahtzee
    else Other(s)
  }

  /** Every known category, and every unknown name, reads back as itself. */
  lemma NameRoundTrip(c: Category)
    requires c.Other? ==> c.name !in KnownNames
    ensures FromName(Name(c)) == c
  {
  }

  /** One filled line of a scorecard. */
  datatype Entry = Entry(category: Category, points: int)

  /** A scorecard in the order its categories were filled (a JavaScript
      object keeps its string keys in insertion order). */
  type Scorecard = seq<Entry>

  predicate IsFilled(sc: Scorecard, c: Category) {
    exists i :: 0 <= i < |sc| && sc[i].category == c
  }

  /** `scorecard[cat] === undefined` */
  predicate IsOpen(sc: Scorecard, c: Category) {
    !IsFilled(sc, c)
  }

  /** No category was written twice. */
  predicate DistinctKeys(sc: Scorecard) {
    forall i, j :: 0 <= i < j < |sc| ==> sc[i].category != sc[j].category
  }

  predicate NonNegative(sc: Scorecard) {
    forall i :: 0 <= i < |sc| ==> sc[i].points >= 0
  }

  /** The sum of the points written on a scorecard. */
  function Total(sc: Scorecard): int {
    if sc == [] then 0 else Total(sc[..|sc| - 1]) + sc[|sc| - 1].points
  }

  lemma {:induction false} TotalNonNegative(sc: Scorecard)
    requires NonNegative(sc)
    ensures Total(sc) >= 0
  {
    if sc != [] {
      TotalNonNegative(sc[..|sc| - 1]);
    }
  }

  /** Filling one more line keeps the keys distinct exactly when the
      category was open, and adds that line's points to the total. */
  lemma AppendEntry(sc: Scorecard, e: Entry)
    ensures Total(sc + [e]) == Total(sc) + e.points
    ensures DistinctKeys(sc) && IsOpen(sc, e.category) <==> DistinctKeys(sc + [e])
    ensures forall c :: IsFilled(sc + [e], c) <==> IsFilled(sc, c) || c == e.category
  {
    var t := sc + [e];
    assert t[..|t| - 1] == sc;
    forall c ensures IsFilled(t, c) <==> IsFilled(sc, c) || c == e.category {
      if IsFilled(t, c) {
        var i :| 0 <= i < |t| && t[i].category == c;
        if i < |sc| { assert sc[i].category == c; }
      }
      if IsFilled(sc, c) {
        var i :| 0 <= i < |sc| && sc[i].category == c;
        assert t[i].category == c;
      }
      if c == e.category { assert t[|sc|].category == c; }
    }
    if DistinctKeys(t) {
      assert DistinctKeys(sc) by {
        forall i, j | 0 <= i < j < |sc| ensures sc[i].category != sc[j].category {
          assert t[i] == sc[i] && t[j] == sc[j];
        }
      }
      forall i | 0 <= i < |sc| ensures sc[i].category != e.category {
        assert t[i] == sc[i] && t[|sc|] == e;
      }
    }
  }
}
