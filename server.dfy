/**
 * The game server: the rooms it keeps, the dice rolls it makes, the score
 * it records for a human player, and the five socket handlers that change
 * them (create a room, join it, start the game, roll, submit a score).
 */
module Server {
  import opened Options
  import opened Categories
  import opened Dice
  import BotLogic

  // ---------------------------------------------------------------------
  // Scoring on the server (lines 33-49)
  // ---------------------------------------------------------------------

  /** The categories the server's scoring switch has a case for. */
  predicate ScoredByServer(c: Category) {
    c in {Ones, Twos, Threes, Fours, Fives, Sixes, Chance, Yahtzee}
  }

  /** What the server records for a category: the six upper categories,
      chance and yahtzee; every other name falls to `default: return 0`. */
  function ServerScore(category: Category, dice: seq<int>): int {
    match category
    case Ones => Count(dice, 1) * 1
    case Twos => Count(dice, 2) * 2
    case Threes => Count(dice, 3) * 3
    case Fours => Count(dice, 4) * 4
    case Fives => Count(dice, 5) * 5
    case Sixes => Count(dice, 6) * 6
    case Chance => Sum(dice)
    case Yahtzee => if HasCount(dice, 5) then 50 else 0
    case _ => 0
  }

  /** `calculateScore(category, dice)` */
  method CalculateScore(category: Category, dice: seq<int>) returns (r: int)
    ensures r == ServerScore(category, dice)
  {
    var counts := CountFaces(dice);
    var sum := Sum(dice);
    CountsTableValues(dice, counts, 5);
    match category {
      case Ones => r := Lookup(counts, 1) * 1;
      case Twos => r := Lookup(counts, 2) * 2;
      case Threes => r := Lookup(counts, 3) * 3;
      case Fours => r := Lookup(counts, 4) * 4;
      case Fives => r := Lookup(counts, 5) * 5;
      case Sixes => r := Lookup(counts, 6) * 6;
      case Chance => r := sum;
      case Yahtzee => r := if IncludesValue(counts, 5) then 50 else 0;
      case _ => r := 0;
    }
  }

  /** On the categories the server knows, it scores as the full scoring
      function does; every other category is recorded as 0, whatever the
      hand. */
  lemma ServerAgreesWithFullScoring(category: Category, dice: seq<int>)
    ensures ScoredByServer(category) ==> ServerScore(category, dice) == BotLogic.PossibleScore(category, dice)
    ensures !ScoredByServer(category) ==> ServerScore(category, dice) == 0
  {
  }

  /** A full house the bot would value at 25 is recorded as 0 for a human. */
  lemma ServerRecordsZeroForFullHouse()
    ensures BotLogic.PossibleScore(FullHouse, [2, 2, 2, 5, 5]) == 25
    ensures ServerScore(FullHouse, [2, 2, 2, 5, 5]) == 0
  {
    BotLogic.SampleFullHouse();
  }

  /** On a server hand the recorded score lies between 0 and 50. */
  lemma ServerScoreBounds(category: Category, dice: seq<int>)
    requires ValidDice(dice)
    ensures 0 <= ServerScore(category, dice) <= 50
  {
    SumBounds(dice, 0, 6);
  }

  /** The server's yahtzee pays 50 exactly when all five dice show one face. */
  lemma ServerYahtzeeIffAllEqual(dice: seq<int>)
    requires |dice| == 5
    ensures ServerScore(Yahtzee, dice) == 50 <==> forall i :: 0 <= i < 5 ==> dice[i] == dice[0]
  {
    BotLogic.YahtzeeIffAllEqual(dice);
  }

  /** The unrolled hand [0, 0, 0, 0, 0] shows one face five times, so a
      yahtzee submitted before the first roll is recorded as 50. */
  lemma UnrolledYahtzeeScoresFifty()
    ensures ServerScore(Yahtzee, [0, 0, 0, 0, 0]) == 50
  {
    var d := [0, 0, 0, 0, 0];
    assert Count(d, d[0]) == 5;
  }

  // ---------------------------------------------------------------------
  // Rolling (lines 26-30)
  // ---------------------------------------------------------------------

  /** What `Math.ceil(Math.random() * 6)` can return: 1..6, and 0 when
      `Math.random()` returns exactly 0. */
  predicate DieDraw(v: int) {
    0 <= v <= 6
  }

  /** `generateRandomDice(currentDice, keptIndices)`, with the value drawn
      for position i given as draws[i]. */
  function GenerateRandomDice(currentDice: seq<int>, keptIndices: seq<int>, draws: seq<int>): (r: seq<int>)
    requires |draws| == |currentDice|
    ensures |r| == |currentDice|
    ensures forall i :: 0 <= i < |r| && i in keptIndices ==> r[i] == currentDice[i]
    ensures forall i :: 0 <= i < |r| && i !in keptIndices ==> r[i] == draws[i]
  {
    seq(|currentDice|, i requires 0 <= i < |currentDice| => if i in keptIndices then currentDice[i] else draws[i])
  }

  /** A roll of a server hand is again a server hand. */
  lemma RollKeepsHandValid(currentDice: seq<int>, keptIndices: seq<int>, draws: seq<int>)
    requires ValidDice(currentDice) && |draws| == 5
    requires forall i :: 0 <= i < 5 ==> DieDraw(draws[i])
    ensures ValidDice(GenerateRandomDice(currentDice, keptIndices, draws))
  {
  }

  /** Keeping every position rerolls nothing. */
  lemma KeepingAllRollsNothing(currentDice: seq<int>, keptIndices: seq<int>, draws: seq<int>)
    requires |draws| == |currentDice|
    requires forall i :: 0 <= i < |currentDice| ==> i in keptIndices
    ensures GenerateRandomDice(currentDice, keptIndices, draws) == currentDice
  {
  }

  // ---------------------------------------------------------------------
  // Rooms and players
  // ---------------------------------------------------------------------

  datatype GameState = Waiting | Playing | Finished

  /** A player entry; the scorecard is absent until the player's first
      submission. */
  datatype Player = Player(id: string, name: string, score: int, scorecard: Option<Scorecard>)

  /** A room. Before `start_game` the source has no `dice` and no
      `rollsLeft` field; here they hold [] and 0 until then. */
  datatype Room = Room(players: seq<Player>, gameState: GameState, currentTurn: int,
                       dice: seq<int>, rollsLeft: int)

  /** `player.scorecard || {}` */
  function Card(p: Player): Scorecard {
    if p.scorecard.Some? then p.scorecard.value else []
  }

  /** A player's score is the total of the scorecard, which names each
      category at most once and holds no negative points. */
  predicate PlayerOk(p: Player) {
    DistinctKeys(Card(p)) && NonNegative(Card(p)) && p.score == Total(Card(p))
  }

  /** What every room of the server satisfies between two events. */
  predicate RoomOk(room: Room) {
    |room.players| >= 1 && 0 <= room.currentTurn < |room.players| &&
    room.gameState != Finished &&
    (room.gameState == Playing ==> ValidDice(room.dice) && 0 <= room.rollsLeft <= 3) &&
    forall i :: 0 <= i < |room.players| ==> PlayerOk(room.players[i])
  }

  function CurrentPlayer(room: Room): Player
    requires 0 <= room.currentTurn < |room.players|
  {
    room.players[room.currentTurn]
  }

  const Unrolled: seq<int> := [0, 0, 0, 0, 0]

  /** The room `create_room` stores: its creator as the only player. */
  function NewRoom(socket: string, playerName: string): (room: Room)
    ensures RoomOk(room) && room.gameState == Waiting
    ensures room.players == [Player(socket, playerName, 0, None)] && room.currentTurn == 0
    ensures CurrentPlayer(room) == Player(socket, playerName, 0, None)
  {
    Room([Player(socket, playerName, 0, None)], Waiting, 0, [], 0)
  }

  /** `room.players.push(...)` of `join_room`. */
  function WithPlayer(room: Room, socket: string, playerName: string): (r: Room)
    ensures RoomOk(room) ==> RoomOk(r)
    ensures |r.players| == |room.players| + 1 && r.players[|room.players|] == Player(socket, playerName, 0, None)
    ensures r.players[..|room.players|] == room.players
    ensures r.gameState == room.gameState && r.currentTurn == room.currentTurn
  {
    room.(players := room.players + [Player(socket, playerName, 0, None)])
  }

  /** The room after `start_game`: playing, first player's turn, unrolled
      dice, three rolls; players and scores are kept as they are. */
  function Started(room: Room): (r: Room)
    ensures RoomOk(room) ==> RoomOk(r)
    ensures r.gameState == Playing && r.currentTurn == 0 && r.rollsLeft == 3
    ensures ValidDice(r.dice) && BotLogic.AllUnrolled(r.dice)
    ensures r.players == room.players
  {
    room.(gameState := Playing, currentTurn := 0, dice := Unrolled, rollsLeft := 3)
  }

  /** The room after a roll: the dice rerolled, one roll fewer. */
  function Rolled(room: Room, keptIndices: seq<int>, draws: seq<int>): (r: Room)
    requires |draws| == |room.dice|
    ensures r.dice == GenerateRandomDice(room.dice, keptIndices, draws) && r.rollsLeft == room.rollsLeft - 1
    ensures r.players == room.players && r.currentTurn == room.currentTurn && r.gameState == room.gameState
    ensures (RoomOk(room) && room.gameState == Playing && room.rollsLeft > 0 &&
             forall i :: 0 <= i < |draws| ==> DieDraw(draws[i])) ==> RoomOk(r)
  {
    var r := room.(dice := GenerateRandomDice(room.dice, keptIndices, draws), rollsLeft := room.rollsLeft - 1);
    if RoomOk(room) && room.gameState == Playing && (forall i :: 0 <= i < |draws| ==> DieDraw(draws[i])) then
      RollKeepsHandValid(room.dice, keptIndices, draws);
      r
    else r
  }

  /** `(currentTurn + 1) % players.length` */
  function NextTurn(t: int, n: int): (r: int)
    requires 0 <= t < n
    ensures 0 <= r < n
    ensures r == t + 1 || (t == n - 1 && r == 0)
  {
    (t + 1) % n
  }

  /** `if (!currentPlayer.scorecard) currentPlayer.scorecard = {}`: the
      current player gets an empty scorecard; nothing else changes. */
  function WithCard(room: Room): (r: Room)
    requires 0 <= room.currentTurn < |room.players|
    ensures |r.players| == |room.players| &&
      forall i :: 0 <= i < |room.players| && i != room.currentTurn ==> r.players[i] == room.players[i]
    ensures r.currentTurn == room.currentTurn && r.gameState == room.gameState && r.dice == room.dice
    ensures r.rollsLeft == room.rollsLeft
    ensures RoomOk(room) ==> RoomOk(r)
    ensures CurrentPlayer(r).scorecard.Some? && Card(CurrentPlayer(r)) == Card(CurrentPlayer(room))
    ensures CurrentPlayer(r).id == CurrentPlayer(room).id && CurrentPlayer(r).name == CurrentPlayer(room).name
    ensures CurrentPlayer(r).score == CurrentPlayer(room).score
  {
    var p := CurrentPlayer(room);
    if p.scorecard.Some? then room
    else room.(players := room.players[room.currentTurn := p.(scorecard := Some([]))])
  }

  /** The room after the current player files `category` for `points`:
      the line is written, the score raised, the turn passed on, the dice
      reset. */
  function Recorded(room: Room, category: Category, points: int): (r: Room)
    requires RoomOk(room)
    requires IsOpen(Card(CurrentPlayer(room)), category)
    ensures points >= 0 ==> RoomOk(r)
    ensures |r.players| == |room.players| && r.gameState == room.gameState
    ensures var p := room.players[room.currentTurn]; var q := r.players[room.currentTurn];
      Card(q) == Card(p) + [Entry(category, points)] && q.score == p.score + points &&
      q.id == p.id && q.name == p.name
    ensures IsFilled(Card(r.players[room.currentTurn]), category)
    ensures forall i :: 0 <= i < |room.players| && i != room.currentTurn ==> r.players[i] == room.players[i]
    ensures r.currentTurn == NextTurn(room.currentTurn, |room.players|)
    ensures r.dice == Unrolled && r.rollsLeft == 3
  {
    var p := CurrentPlayer(room);
    var card := Card(p) + [Entry(category, points)];
    AppendEntry(Card(p), Entry(category, points));
    TotalNonNegative(Card(p));
    var q := p.(scorecard := Some(card), score := p.score + points);
    Room(room.players[room.currentTurn := q], room.gameState,
         NextTurn(room.currentTurn, |room.players|), Unrolled, 3)
  }

  /** The turn after k submissions, starting at t. */
  function TurnAfter(t: int, n: int, k: nat): (r: int)
    requires 0 <= t < n
    ensures 0 <= r < n
    decreases k
  {
    if k == 0 then t else TurnAfter(NextTurn(t, n), n, k - 1)
  }

  /** Before the last seat the turn moves one seat up per submission. */
  lemma {:induction false} TurnAfterNoWrap(t: int, n: int, k: nat)
    requires 0 <= t < n && t + k < n
    ensures TurnAfter(t, n, k) == t + k
    decreases k
  {
    if k > 0 {
      TurnAfterNoWrap(t + 1, n, k - 1);
    }
  }

  /** a submissions and then b more are a + b submissions. */
  lemma {:induction false} TurnAfterAdd(t: int, n: int, a: nat, b: nat)
    requires 0 <= t < n
    ensures TurnAfter(t, n, a + b) == TurnAfter(TurnAfter(t, n, a), n, b)
    decreases a
  {
    if a > 0 {
      TurnAfterAdd(NextTurn(t, n), n, a - 1, b);
    }
  }

  /** From seat t, the turn reaches seat 0 after n - t submissions. */
  lemma TurnWrapsToFirst(t: int, n: int)
    requires 0 <= t < n
    ensures TurnAfter(t, n, n - t) == 0
  {
    TurnAfterAdd(t, n, n - 1 - t, 1);
    TurnAfterNoWrap(t, n, n - 1 - t);
  }

  /** How many submissions pass, starting at seat t, before seat p plays. */
  function TurnsUntil(t: int, n: int, p: int): (k: nat)
    requires 0 <= t < n && 0 <= p < n
    ensures k < n
  {
    if p >= t then p - t else p + n - t
  }

  /** After one submission per player the turn is back where it started,
      and every seat gets the turn within one round. */
  lemma EveryPlayerGetsATurn(t: int, n: int)
    requires 0 <= t < n
    ensures TurnAfter(t, n, n) == t
    ensures forall p :: 0 <= p < n ==> TurnAfter(t, n, TurnsUntil(t, n, p)) == p
  {
    TurnWrapsToFirst(t, n);
    TurnAfterAdd(t, n, n - t, t);
    TurnAfterNoWrap(0, n, t);
    forall p | 0 <= p < n ensures TurnAfter(t, n, TurnsUntil(t, n, p)) == p {
      if p >= t {
        TurnAfterNoWrap(t, n, p - t);
      } else {
        TurnAfterAdd(t, n, n - t, p);
        TurnAfterNoWrap(0, n, p);
      }
    }
  }

  // ---------------------------------------------------------------------
  // Messages
  // ---------------------------------------------------------------------

  datatype Message =
    | RoomCreated(roomCode: string)
    | PlayerJoined(players: seq<Player>)
    | ErrorMessage(text: string)
    | GameStarted(currentTurn: string, dice: seq<int>, rollsLeft: int)
    | DiceUpdated(dice: seq<int>, rollsLeft: int)
    | TurnUpdated(currentTurn: string, dice: seq<int>, rollsLeft: int, players: seq<Player>)

  /** `socket.emit(...)` goes to one connection, `io.to(code).emit(...)`
      to every connection that joined the room. */
  datatype Event = ToSocket(socket: string, msg: Message) | ToRoom(roomCode: string, msg: Message)

  const JoinRefused := "Room not found or game already started"
  const AlreadyFilled := "Category already filled"

  // ---------------------------------------------------------------------
  // The server state and its handlers (lines 18, 51-156)
  // ---------------------------------------------------------------------

  /** Every stored room is well formed. */
  predicate RoomsOk(rooms: map<string, Room>) {
    forall code :: code in rooms ==> RoomOk(rooms[code])
  }

  /** Storing a well-formed room keeps every stored room well formed. */
  lemma StoreRoom(rooms: map<string, Room>, code: string, room: Room)
    requires RoomsOk(rooms) && RoomOk(room)
    ensures RoomsOk(rooms[code := room])
  {
  }

  class GameServer {
    /** `rooms`, keyed by room code. */
    var rooms: map<string, Room>
    /** The connections joined to each socket.io room. */
    var channels: map<string, set<string>>
    /** Every message emitted, in order. */
    var events: seq<Event>

    ghost predicate Valid()
      reads this
    {
      RoomsOk(rooms)
    }

    constructor ()
      ensures Valid() && rooms == map[] && channels == map[] && events == []
    {
      rooms := map[];
      channels := map[];
      events := [];
    }

    /** `socket.join(roomCode)` */
    function Joined(roomCode: string, socket: string): map<string, set<string>>
      reads this
    {
      channels[roomCode := (if roomCode in channels then channels[roomCode] else {}) + {socket}]
    }

    /** `create_room`; the room code comes from `generateRoomCode()`. A room
        already stored under that code is replaced. */
    method CreateRoom(socket: string, playerName: string, roomCode: string)
      requires Valid()
      modifies this
      ensures Valid()
      ensures rooms == old(rooms)[roomCode := NewRoom(socket, playerName)]
      ensures channels == old(Joined(roomCode, socket))
      ensures events == old(events) + [ToSocket(socket, RoomCreated(roomCode))]
    {
      rooms := rooms[roomCode := NewRoom(socket, playerName)];
      channels := Joined(roomCode, socket);
      events := events + [ToSocket(socket, RoomCreated(roomCode))];
    }

    /** `join_room`: only a waiting room takes new players. */
    method JoinRoom(socket: string, roomCode: string, playerName: string)
      requires Valid()
      modifies this
      ensures Valid()
      ensures roomCode in old(rooms) && old(rooms)[roomCode].gameState == Waiting ==>
        var r := WithPlayer(old(rooms)[roomCode], socket, playerName);
        rooms == old(rooms)[roomCode := r] && channels == old(Joined(roomCode, socket)) &&
        events == old(events) + [ToRoom(roomCode, PlayerJoined(r.players))]
      ensures !(roomCode in old(rooms) && old(rooms)[roomCode].gameState == Waiting) ==>
        rooms == old(rooms) && channels == old(channels) &&
        events == old(events) + [ToSocket(socket, ErrorMessage(JoinRefused))]
    {
      if roomCode in rooms && rooms[roomCode].gameState == Waiting {
        var r := WithPlayer(rooms[roomCode], socket, playerName);
        rooms := rooms[roomCode := r];
        channels := Joined(roomCode, socket);
        events := events + [ToRoom(roomCode, PlayerJoined(r.players))];
      } else {
        events := events + [ToSocket(socket, ErrorMessage(JoinRefused))];
      }
    }

    /** `start_game`: any connection may start any room, also one already
        playing, which starts over without clearing the scores. */
    method StartGame(roomCode: string)
      requires Valid()
      modifies this
      ensures Valid() && channels == old(channels)
      ensures roomCode in old(rooms) ==>
        var r := Started(old(rooms)[roomCode]);
        rooms == old(rooms)[roomCode := r] &&
        events == old(events) + [ToRoom(roomCode, GameStarted(r.players[0].id, r.dice, r.rollsLeft))]
      ensures roomCode !in old(rooms) ==> rooms == old(rooms) && events == old(events)
    {
      if roomCode in rooms && |rooms[roomCode].players| > 0 {
        var r := Started(rooms[roomCode]);
        rooms := rooms[roomCode := r];
        events := events + [ToRoom(roomCode, GameStarted(r.players[0].id, r.dice, r.rollsLeft))];
      }
    }

    /** The connection whose turn it is in a playing room. */
    ghost predicate MayAct(roomCode: string, socket: string)
      reads this
      requires Valid()
    {
      roomCode in rooms && rooms[roomCode].gameState == Playing &&
      CurrentPlayer(rooms[roomCode]).id == socket
    }

    /** `roll_dice`; draws[i] is the value `Math.ceil(Math.random() * 6)`
        gives position i if it is rerolled. Calls from anyone but the
        current player, on a room not playing or with no rolls left, change
        nothing and answer nothing. */
    method RollDice(socket: string, roomCode: string, keptIndices: seq<int>, draws: seq<int>)
      requires Valid()
      requires |draws| == 5 && forall i :: 0 <= i < 5 ==> DieDraw(draws[i])
      modifies this
      ensures Valid() && channels == old(channels)
      ensures old(MayAct(roomCode, socket)) && old(rooms)[roomCode].rollsLeft > 0 ==>
        var r := Rolled(old(rooms)[roomCode], keptIndices, draws);
        rooms == old(rooms)[roomCode := r] &&
        events == old(events) + [ToRoom(roomCode, DiceUpdated(r.dice, r.rollsLeft))]
      ensures !(old(MayAct(roomCode, socket)) && old(rooms)[roomCode].rollsLeft > 0) ==>
        rooms == old(rooms) && events == old(events)
    {
      if roomCode in rooms && rooms[roomCode].gameState == Playing && rooms[roomCode].rollsLeft > 0 {
        var room := rooms[roomCode];
        if socket != CurrentPlayer(room).id {
          return;
        }
        var r := Rolled(room, keptIndices, draws);
        rooms := rooms[roomCode := r];
        events := events + [ToRoom(roomCode, DiceUpdated(r.dice, r.rollsLeft))];
      }
    }

    /** `submit_score`: the current player files a category for the hand
        showing, whatever the rolls left. A category already on the
        scorecard is refused to the caller alone. */
    method SubmitScore(socket: string, roomCode: string, category: string)
      requires Valid()
      modifies this
      ensures Valid() && channels == old(channels)
      ensures !old(MayAct(roomCode, socket)) ==> rooms == old(rooms) && events == old(events)
      ensures old(MayAct(roomCode, socket)) ==>
        var room := WithCard(old(rooms)[roomCode]);
        var c := FromName(category);
        if IsFilled(Card(CurrentPlayer(room)), c) then
          rooms == old(rooms)[roomCode := room] &&
          events == old(events) + [ToSocket(socket, ErrorMessage(AlreadyFilled))]
        else
          var r := Recorded(room, c, ServerScore(c, room.dice));
          rooms == old(rooms)[roomCode := r] &&
          events == old(events) + [ToRoom(roomCode, TurnUpdated(CurrentPlayer(r).id, r.dice, r.rollsLeft, r.players))]
    {
      if roomCode in rooms && rooms[roomCode].gameState == Playing {
        var room := rooms[roomCode];
        if socket != CurrentPlayer(room).id {
          return;
        }
        var c := FromName(category);
        var score := CalculateScore(c, room.dice);
        room := WithCard(room);
        if IsFilled(Card(CurrentPlayer(room)), c) {
          StoreRoom(rooms, roomCode, room);
          rooms := rooms[roomCode := room];
          events := events + [ToSocket(socket, ErrorMessage(AlreadyFilled))];
          return;
        }
        ServerScoreBounds(c, room.dice);
        var r := Recorded(room, c, score);
        StoreRoom(rooms, roomCode, r);
        rooms := rooms[roomCode := r];
        events := events + [ToRoom(roomCode, TurnUpdated(CurrentPlayer(r).id, r.dice, r.rollsLeft, r.players))];
      }
    }
  }
}
