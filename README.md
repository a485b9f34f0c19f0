# Yahtzee room server, bot and client scoring — a Dafny model

This project models the game logic of a multiplayer Yahtzee app:

- **the socket.io server** (`server/server.js`):
  - it keeps a map from room codes to rooms;
  - it creates rooms, lets players join waiting rooms and starts games;
  - it rerolls the dice the current player did not keep;
  - it records the score the current player submits for a category, then passes the turn on;
- **the bot** (`server/botLogic.js`):
  - it scores any category for a hand (`calculatePossibleScore`);
  - it decides what a computer player does next (`getBotMove`): roll again keeping some dice, submit a category, or hold;
- **the mobile client** (`client/App.js`):
  - it previews what a category is worth for the dice showing;
  - it selects and deselects dice to keep.

Modules:

| file | module | content |
|---|---|---|
| `options.dfy` | `Options` | `Option` |
| `categories.dfy` | `Categories` | the thirteen categories and their wire names; a scorecard as the ordered list of filled lines, with its total |
| `dice.dfy` | `Dice` | face counts and the face-count table, sums, the sorted distinct faces, the consecutive-run check, the small-straight window scan, and the equivalence of the scans with "four / five faces in a row" |
| `bot_logic.dfy` | `BotLogic` | `PossibleScore` (the full scoring rules) and `CalculatePossibleScore`; the bot's decision procedure as a function `BotMove` and as the method `GetBotMove` with its loops, and lemmas about it |
| `server.dfy` | `Server` | the server's reduced scoring; the dice roll; rooms and players as values; the `GameServer` class with the room map, the joined connections and the log of emitted messages, one method per socket event |
| `client.dfy` | `Client` | the score preview and the `GameScreen` class with its dice selection |

Randomness enters only as parameters:
- the value `Math.ceil(Math.random() * 6)` yields for each position is a parameter `draws`, each in 0..6;
- the room code `generateRoomCode()` yields is a parameter `roomCode`.

Each emitted message is appended to `events`, together with its addressee: one connection, or every connection joined to a room.

## Model

| member | source | states |
|---|---|---|
| Categories.FromName | client/App.js:290-294 | the category for a wire name is the one whose name it is; only the thirteen names of the game map to a real category, anything else is kept as an unknown name |
| Categories.NameRoundTrip | client/App.js:290-294 | a category read back from its own wire name is the same category |
| Categories.AppendEntry | server/server.js:134-135 | writing a line adds its points to the total; a scorecard keeps each category once exactly when the category written was open; afterwards the filled categories are the old ones plus the one written |
| Categories.TotalNonNegative | server/server.js:135 | a scorecard with no negative line has a non-negative total |
| Dice.CountFaces | server/botLogic.js:3-4 | the counts table has a key exactly for each face showing, and its entry for a face is how many dice show it |
| Dice.CountsTableValues | server/botLogic.js:30-38 | some count in the table equals k exactly when some face shows k times; some count is at least k exactly when some face shows at least k times |
| Dice.CountAll | server/botLogic.js:38 | a face counted once per die is the face of every die |
| Dice.UniqueSorted | server/botLogic.js:6 | the distinct faces are strictly increasing and are exactly the faces showing |
| Dice.IsConsecutive | server/botLogic.js:8-13 | the answer is true exactly when each element is one more than the previous |
| Dice.ScanWindows | server/botLogic.js:15-20 | the flag is set exactly when some four adjacent distinct faces are consecutive |
| Dice.WindowIffFourInARow | server/botLogic.js:15-20 | the window scan finds a small straight exactly when four consecutive faces a, a+1, a+2, a+3 all show |
| Dice.LargeIffFiveInARow | server/botLogic.js:21 | five consecutive distinct faces exactly when five faces a..a+4 show and no other face does |
| BotLogic.CalculatePossibleScore | server/botLogic.js:2-41 | the score computed through the counts table, the window scan and the run check equals the declarative rules `PossibleScore`, for every category and hand |
| BotLogic.ScoreBounds | server/botLogic.js:23-40 | a server hand scores between 0 and 50 in every category |
| BotLogic.YahtzeeIffAllEqual | server/botLogic.js:38 | yahtzee pays 50 exactly when all five dice are equal |
| BotLogic.FiveOfAKindCountsEverywhere | server/botLogic.js:30-34 | five of a kind is also a full house (25), three and four of a kind (the sum) |
| BotLogic.SampleFullHouse | server/botLogic.js:32-34 | [2,2,2,5,5] is a full house worth 25 |
| BotLogic.SampleFiveOfAKind | server/botLogic.js:32-38 | [4,4,4,4,4] is worth 25 as full house and 50 as yahtzee |
| BotLogic.SampleSmallStraight | server/botLogic.js:35 | [1,2,3,4,6] is a small straight worth 30 |
| BotLogic.SampleLargeStraight | server/botLogic.js:36 | [2,3,4,5,6] is a large straight worth 40 |
| BotLogic.SampleThreeOfAKind | server/botLogic.js:30 | three of a kind on [2,2,2,5,6] pays the sum of all five dice, 17 |
| BotLogic.MostCommon | server/botLogic.js:79 | the face the reduce picks over the ascending keys has the highest count, and the largest face among the faces tied for it |
| BotLogic.ReduceOverKeys | server/botLogic.js:79 | reducing over any increasing list holding exactly the faces of a non-empty hand picks the top face |
| BotLogic.TopFaceUnique | server/botLogic.js:79 | only one face has that property |
| BotLogic.LongestRun | server/botLogic.js:93-104 | the run found is a run of consecutive values; no run is longer; no equally long run starts earlier |
| BotLogic.LongestSequence | server/botLogic.js:94-104 | the loop's `longestSeq` is exactly the first longest consecutive run of the sorted distinct faces |
| BotLogic.LongRunGivesThree | server/botLogic.js:93-106 | a longest run of at least 3 means three consecutive faces a, a+1, a+2 show in the hand |
| BotLogic.ThreeGivesLongRun | server/botLogic.js:93-106 | three consecutive faces in the hand make the longest run at least 3 long |
| BotLogic.LongRunIffThreeInARow | server/botLogic.js:106 | the longest run has at least 3 values exactly when three consecutive faces a, a+1, a+2 all show |
| BotLogic.KeptPositions | server/botLogic.js:83 | the kept positions are increasing, in range, and are exactly the positions whose die the rule keeps |
| BotLogic.FirstWorth | server/botLogic.js:129-134 | the priority found is open and scores above 0, and none before it does; none means no open priority scores |
| BotLogic.FirstOpen | server/botLogic.js:143-145 | the sacrifice found is open and none before it is; none means all are filled |
| BotLogic.GetBotMove | server/botLogic.js:43-149 | the method's move equals the decision function `BotMove` |
| BotLogic.ChooseKept | server/botLogic.js:77-119 | the roll phase's move equals `RollStrategy` |
| BotLogic.ChooseCategory | server/botLogic.js:121-148 | the forced-submission loops' move equals `ForcedSubmit` |
| BotLogic.BotRollsUnrolledHand | server/botLogic.js:45-47 | on a hand not rolled yet the bot rerolls everything |
| BotLogic.RollStrategyWellFormed | server/botLogic.js:77-119 | with rolls left the bot always rolls, keeping increasing positions inside the hand |
| BotLogic.ForcedSubmitWellFormed | server/botLogic.js:121-148 | with no rolls left the bot never rolls, and a submission names an open category out of the thirteen |
| BotLogic.BotMoveWellFormed | server/botLogic.js:43-149 | a submission names one of the thirteen categories and an open one; a roll keeps increasing positions within the hand; a hold happens only when all thirteen categories are filled |
| BotLogic.BotKeepsTopFace | server/botLogic.js:79-89 | with rolls left, no immediate submission and a pair in hand, the bot keeps exactly the dice showing the top face |
| BotLogic.SampleKeepFourFives | server/botLogic.js:79-83 | on [5,5,5,5,2] with one roll left and an empty scorecard the bot rerolls only the 2 |
| BotLogic.RollFallsBackToHighDice | server/botLogic.js:112-118 | with all faces distinct and no usable run, the bot keeps its 4s, 5s and 6s when there are some but not five of them, and rerolls everything otherwise |
| BotLogic.HighDiceNotAll | server/botLogic.js:112-113 | a hand with a die below 4 never keeps all five positions as high dice |
| BotLogic.BotHighDiceFallback | server/botLogic.js:112-118 | in that case the move is a roll keeping exactly the high dice, or keeping none |
| BotLogic.ForcedHoldIffAllFilled | server/botLogic.js:123-148 | the forced submission is a hold exactly when all thirteen categories are filled |
| BotLogic.ForcedScoresWhileChanceOpen | server/botLogic.js:129-137 | while chance is open, a rolled hand is always submitted to a category where it scores above 0 |
| BotLogic.ForcedTakesFirstWorth | server/botLogic.js:129-134 | a scoring category chosen by the forced submission comes before every other open scoring priority |
| BotLogic.BotForcedChoice | server/botLogic.js:121-148 | with no rolls left the bot makes the forced submission; it holds exactly when the scorecard is full; while chance is open it always scores |
| Server.CalculateScore | server/server.js:33-49 | the server's score equals `ServerScore`: upper section, chance and yahtzee scored, every other name 0 |
| Server.ServerAgreesWithFullScoring | server/server.js:38-48 | on the eight categories the server scores it agrees with the bot's full rules; on the others it records 0 |
| Server.ServerRecordsZeroForFullHouse | server/server.js:47 | a full house [2,2,2,5,5] is worth 25 by the full rules and is recorded as 0 by the server |
| Server.ServerScoreBounds | server/server.js:33-49 | a server hand scores between 0 and 50 |
| Server.ServerYahtzeeIffAllEqual | server/server.js:46 | the server's yahtzee pays 50 exactly when all five dice are equal |
| Server.UnrolledYahtzeeScoresFifty | server/server.js:46 | the unrolled hand [0,0,0,0,0] scores 50 as yahtzee |
| Server.GenerateRandomDice | server/server.js:26-30 | the hand keeps its length; a kept position keeps its value; every other position takes its draw |
| Server.RollKeepsHandValid | server/server.js:26-30 | rerolling a hand of five dice with faces 0..6 gives such a hand again |
| Server.KeepingAllRollsNothing | server/server.js:27-29 | keeping every position leaves the hand as it was |
| Server.NewRoom | server/server.js:57-61 | a new room is waiting, its creator is the only player and the current one, with score 0 and no scorecard |
| Server.WithPlayer | server/server.js:71 | the joining player is appended after the others; the room keeps its state and its turn and stays well formed |
| Server.Started | server/server.js:84-88 | a started room is playing, on the first player's turn, with three rolls and the unrolled hand; players and scores are kept |
| Server.Rolled | server/server.js:107-108 | a roll replaces the dice by the reroll of the kept positions with the given draws, takes one roll away and keeps players, turn and state; from a well-formed playing room with rolls left the room stays well formed |
| Server.NextTurn | server/server.js:138 | the next turn is the next player, or the first after the last |
| Server.WithCard | server/server.js:127 | the current player gets a scorecard, empty if missing; the other players, the current player's id, name, score and lines, the turn, state, dice and rolls left are unchanged |
| Server.Recorded | server/server.js:134-141 | the category line is added to the current player's scorecard and its points to the score; other players are unchanged; the turn passes on; the dice and rolls reset; the room stays well formed |
| Server.TurnAfterNoWrap | server/server.js:138 | k turns from t, when t + k stays below the player count, reach player t + k |
| Server.TurnAfterAdd | server/server.js:138 | k + m turns from t are m turns from where k turns from t reach |
| Server.TurnWrapsToFirst | server/server.js:138 | n - t turns from t reach the first player |
| Server.EveryPlayerGetsATurn | server/server.js:138 | after as many turns as players the turn is back where it started, and every player's turn comes within that many turns |
| Server.GameServer.constructor | server/server.js:18 | no rooms, no joined connections, nothing emitted |
| Server.GameServer.CreateRoom | server/server.js:55-65 | the new room is stored under the code; the creator joins its channel; the code goes back to the creator alone; every room stays well formed |
| Server.GameServer.JoinRoom | server/server.js:68-78 | a waiting room takes the player and tells its whole channel the new player list; a missing or started room is refused to the caller alone and nothing changes |
| Server.GameServer.StartGame | server/server.js:81-97 | a stored room is started and the channel is told the first player, the hand and the rolls; a missing room changes nothing |
| Server.GameServer.RollDice | server/server.js:100-115 | only the current player of a playing room with rolls left rerolls; the channel is told the new hand and rolls; any other call changes nothing |
| Server.GameServer.SubmitScore | server/server.js:118-150 | only the current player of a playing room submits; a filled category is refused to the caller alone, leaving only the scorecard initialised; an open one is recorded at the server's score, and the channel is told the next player and the players |
| Client.CalculateScore | client/App.js:226-266 | the preview for a wire name equals the full rules `PossibleScore` of the category of that name; an unknown name scores 0 |
| Client.PreviewAgainstRecorded | client/App.js:248-265 | the preview equals the score the server records on the categories the server scores; on the others the server records 0 |
| Client.PreviewOverstatesFullHouse | client/App.js:257-259 | the full-house preview on [2,2,2,5,5] shows 25 while the server records 0 |
| Client.Without | client/App.js:212 | removing an index keeps every other kept index and drops that one |
| Client.WithoutKeepsOrder | client/App.js:212 | removing an index that is not kept leaves the list as it was |
| Client.ToggleFlips | client/App.js:211-215 | toggling flips whether the index is kept and leaves every other index as it was |
| Client.ToggleNoDuplicates | client/App.js:211-215 | toggling never lists a position twice |
| Client.ToggleTwice | client/App.js:211-215 | selecting a die and deselecting it again restores the kept list |
| Client.GameScreen.constructor | client/App.js:61-62 | the screen starts with the unrolled hand and nothing kept |
| Client.GameScreen.ToggleDie | client/App.js:207-218 | an empty die (face 0) cannot be selected; any other index, also one past the hand, is toggled; the dice do not change; a kept list without duplicates stays without them |

## Left out

- Transport: socket.io connections, `socket.join` and `emit` are reduced to a set of joined connection ids per room and a log of addressed messages. Message delivery and ordering across connections are not modelled.
- Console logging is not modelled.
- The `disconnect` handler is not modelled: it only logs.
- Setting up the HTTP server and CORS is not modelled.
- `generateRoomCode` is not modelled. Its result is the `roomCode` parameter of `CreateRoom`. A code that collides with an existing room replaces that room, as `rooms.set` does.
- `Math.random` is not modelled. Each rerolled position takes a draw in 0..6. The value 0 occurs when `Math.random()` returns exactly 0.
- Server.GameServer.RollDice: requires five draws in 0..6, so it does not cover a room whose hand has a different length.
- Rooms are mutated in place in the source. Here a handler replaces the room's value in the map. Sharing a room object between two map entries is not modelled, and the source never does it.
- A room has no `dice` or `rollsLeft` field before `start_game`. The model holds `[]` and `0` there until then.
- `room.players.length > 0` in `start_game` always holds for a stored room. The model keeps the test.
- The server's scorecard is a plain JavaScript object. Looking up an inherited property such as `"toString"` or `"constructor"` finds a function, so submitting that name is refused as already filled. In the model an unknown name is an open category scoring 0.
- A scorecard is modelled as the ordered list of its filled lines. Filled means listed.
- The `finished` game state is never reached by the source. The model keeps the state but no handler produces it.
- BotLogic.GetBotMove: requires five dice with faces 0..6, which are the server's hands. For such faces `Object.keys` lists the counts table in ascending numeric order, and the tie-break of the most-common reduce depends on that order. For negative or fractional faces the key order would be insertion order, which the model does not follow.
- BotLogic.MostCommon: reduces over the faces in ascending order for every hand. JavaScript would list negative or fractional keys in insertion order, which such hands never have.
- BotLogic.BotMove: requires five dice with faces 0..6, for the same reason.
- BotLogic.ChooseKept: requires five dice with faces 0..6, for the same reason.
- Client: the React Native screens, sounds, alerts and translations are not modelled.
- Client: the client's submit flow is not modelled, nor the button that submits before any roll. The server itself accepts such a submission, and `Server.UnrolledYahtzeeScoresFifty` shows what it records.
- `keptIndicesRef` in `toggleDie` only mirrors the same list for a callback, so it is not modelled separately.
